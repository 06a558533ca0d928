/**
 * raconfig/include/raconfig/raconfig_range.hpp: rendering a range of
 * elements (for error text and for show-config), the backend cell
 * `option_value_backend`, and the backend/user conversion of
 * `convertible_option_value` together with the identity adaptor
 * `option_value<T>` (raconfig/include/raconfig/raconfig.hpp:111-125).
 */
module Range {
  import opened Values
  import opened Containers

  /** The element strings separated by ", ". */
  function Join(parts: seq<string>): string
  {
    if |parts| == 0 then ""
    else if |parts| == 1 then parts[0]
    else parts[0] + ", " + Join(parts[1..])
  }

  /** The `"{a, b, c}"` form of a range. */
  function Braced(parts: seq<string>): string
  {
    "{" + Join(parts) + "}"
  }

  /** `to_string` of each element, in iteration order. */
  function Renders(xs: seq<int>): seq<string>
  {
    seq(|xs|, i requires 0 <= i < |xs| => IntToString(xs[i]))
  }

  lemma {:induction false} JoinAppend(parts: seq<string>, x: string)
    requires |parts| > 0
    ensures Join(parts + [x]) == Join(parts) + ", " + x
    decreases |parts|
  {
    if |parts| == 1 {
      assert parts + [x] == [parts[0], x];
    } else {
      assert (parts + [x])[1..] == parts[1..] + [x];
      JoinAppend(parts[1..], x);
    }
  }

  /** `to_string(first, last)`: builds the braced text in a loop over the range. */
  method RangeToString(xs: seq<int>) returns (s: string)
    ensures s == Braced(Renders(xs))
  {
    s := "{";
    if |xs| > 0 {
      s := s + IntToString(xs[0]);
      var i := 1;
      assert Renders(xs[..1]) == [IntToString(xs[0])];
      while i < |xs|
        invariant 1 <= i <= |xs|
        invariant s == "{" + Join(Renders(xs[..i]))
      {
        assert Renders(xs[..i + 1]) == Renders(xs[..i]) + [IntToString(xs[i])];
        JoinAppend(Renders(xs[..i]), IntToString(xs[i]));
        s := s + ", " + IntToString(xs[i]);
        i := i + 1;
      }
      assert xs[..i] == xs;
    }
    s := s + "}";
  }

  /** `show_option(actions, name, first, last)`: one string per element, pushed in iteration order. */
  method ShowRange(xs: seq<int>) returns (vs: seq<string>)
    ensures |vs| == |xs|
    ensures forall i :: 0 <= i < |xs| ==> vs[i] == IntToString(xs[i])
  {
    vs := [];
    var i := 0;
    while i < |xs|
      invariant 0 <= i <= |xs|
      invariant |vs| == i
      invariant forall k :: 0 <= k < i ==> vs[k] == IntToString(xs[k])
    {
      vs := vs + [IntToString(xs[i])];
      i := i + 1;
    }
  }

  /** An empty range renders as "{}". */
  lemma BracedEmpty()
    ensures Braced(Renders([])) == "{}"
  {
  }

  /**
   * A non-empty range renders as "{", the first element, then ", " and the
   * next element for each further element, then "}".
   */
  lemma {:induction false} BracedNonEmpty(xs: seq<int>)
    requires |xs| > 0
    ensures Braced(Renders(xs)) == "{" + IntToString(xs[0]) + Tail(Renders(xs)[1..]) + "}"
  {
    JoinTail(Renders(xs));
  }

  /** ", " followed by each part, concatenated. */
  function Tail(parts: seq<string>): string
  {
    if parts == [] then "" else ", " + parts[0] + Tail(parts[1..])
  }

  lemma {:induction false} JoinTail(parts: seq<string>)
    requires |parts| > 0
    ensures Join(parts) == parts[0] + Tail(parts[1..])
    decreases |parts|
  {
    if |parts| > 1 {
      JoinTail(parts[1..]);
      assert parts[1..][1..] == parts[2..];
    }
  }

  /** Identity adaptor (`option_value<T>`): scalars and vectors need no conversion. */
  predicate IsIdentity(shape: Shape)
  {
    shape.Plain? || shape.Vector?
  }

  /**
   * `transform_backend`'s target: the user value built from the backend.
   * Only a container backend converts; the identity adaptor returns it.
   */
  function ToUser(shape: Shape, backend: Value): Value
  {
    if !backend.Many? then backend
    else
      match shape
      case OrderedSet(_, cmp) => Many(BuildOrdered(cmp, true, backend.elems))
      case OrderedMultiset(_, cmp) => Many(BuildOrdered(cmp, false, backend.elems))
      case UnorderedSet(_) => Many(Dedup(backend.elems))
      case UnorderedMultiset(_) => backend
      case Plain(_) => backend
      case Vector(_) => backend
  }

  /** A user value a container of type `shape` can hold, in its iteration order. */
  predicate Canonical(shape: Shape, v: Value)
  {
    match shape
    case OrderedSet(_, cmp) => v.Many? && StrictlySorted(cmp, v.elems)
    case OrderedMultiset(_, cmp) => v.Many? && Sorted(cmp, v.elems)
    case UnorderedSet(_) => v.Many? && NoDuplicates(v.elems)
    case UnorderedMultiset(_) => v.Many?
    case Plain(_) => v.One?
    case Vector(_) => v.Many?
  }

  /** Converting a well-typed backend value yields a well-typed container in iteration order. */
  lemma ToUserCanonical(shape: Shape, backend: Value)
    requires Conforms(shape, backend)
    ensures Canonical(shape, ToUser(shape, backend))
    ensures Conforms(shape, ToUser(shape, backend))
  {
    match shape
    case OrderedSet(_, cmp) =>
      BuildSetProperties(cmp, backend.elems);
      assert forall x :: x in BuildOrdered(cmp, true, backend.elems) ==> x in Elements(backend.elems);
    case OrderedMultiset(_, cmp) =>
      BuildMultisetProperties(cmp, backend.elems);
      assert forall x :: x in BuildOrdered(cmp, false, backend.elems) ==> x in multiset(backend.elems);
    case UnorderedSet(_) =>
      DedupProperties(backend.elems);
      assert forall x :: x in Dedup(backend.elems) ==> x in Elements(backend.elems);
    case _ =>
  }

  /**
   * A container seeds its backend with its own elements in iteration order;
   * converting that backend back gives the container unchanged.
   */
  lemma RoundTrip(shape: Shape, user: Value)
    requires Canonical(shape, user)
    ensures ToUser(shape, user) == user
  {
    match shape
    case OrderedSet(_, cmp) => SetRoundTrip(cmp, user.elems);
    case OrderedMultiset(_, cmp) => MultisetRoundTrip(cmp, user.elems);
    case UnorderedSet(_) => DedupRoundTrip(user.elems);
    case _ =>
  }

  /** The identity adaptor's conversion changes nothing. */
  lemma IdentityKeepsBackend(shape: Shape, backend: Value)
    requires IsIdentity(shape)
    ensures ToUser(shape, backend) == backend
  {
  }

  /**
   * What each container keeps of its backend vector: a set kind holds the
   * distinct elements, a multiset kind every element with its count, and a
   * vector the elements as they are.
   */
  lemma TransformContents(shape: Shape, elems: seq<int>)
    requires !shape.Plain?
    ensures var u := ToUser(shape, Many(elems));
            && u.Many?
            && match shape
               case OrderedSet(_, cmp) => StrictlySorted(cmp, u.elems) && Elements(u.elems) == Elements(elems)
               case OrderedMultiset(_, cmp) => Sorted(cmp, u.elems) && multiset(u.elems) == multiset(elems)
               case UnorderedSet(_) => NoDuplicates(u.elems) && Elements(u.elems) == Elements(elems)
               case UnorderedMultiset(_) => multiset(u.elems) == multiset(elems) && |u.elems| == |elems|
               case _ => u.elems == elems
  {
    match shape
    case OrderedSet(_, cmp) => BuildSetProperties(cmp, elems);
    case OrderedMultiset(_, cmp) => BuildMultisetProperties(cmp, elems);
    case UnorderedSet(_) => DedupProperties(elems);
    case _ =>
  }

  /**
   * One option's storage: the one-slot backend cell (`option_value_backend`'s
   * `value_`) that the parsers write through `operator*`, and for container
   * options the separate user value (`convertible_option_value`'s `value_`).
   * The identity adaptor has no separate user value: it reads the backend.
   */
  class OptionValue {
    const shape: Shape
    var backend: Value
    var user: Value

    /**
     * Constructor from a user value: the backend gets its elements in
     * iteration order, which for a well-typed user value is that value itself.
     */
    constructor (shape: Shape, value: Value)
      requires Conforms(shape, value) && Canonical(shape, value)
      ensures this.shape == shape
      ensures backend == value && Get() == value
    {
      this.shape := shape;
      backend := value;
      user := value;
    }

    /** `operator()(get_user_type)`. */
    function Get(): Value
      reads this
    {
      if IsIdentity(shape) then backend else user
    }

    /**
     * A write through `operator*` (what `po::notify` does): replaces the
     * backend; a container's user value is untouched until `Transform`.
     */
    method Store(v: Value)
      modifies this
      ensures backend == v && user == old(user)
      ensures Get() == if IsIdentity(shape) then v else old(Get())
    {
      backend := v;
    }

    /**
     * `operator()(transform_backend)`: a container rebuilds its user value
     * from the backend, which is left unchanged; the identity adaptor does nothing.
     */
    method Transform()
      modifies this
      ensures backend == old(backend)
      ensures IsIdentity(shape) ==> user == old(user)
      ensures Get() == ToUser(shape, backend)
    {
      if !IsIdentity(shape) {
        user := ToUser(shape, backend);
      }
    }
  }
}
