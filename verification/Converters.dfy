/** Selectors on their way to a remote cluster and back, and the lock key they end up as. */
module Converters {
  import opened Budget
  import LeaseNames

  /** A Go slice or map may be nil; nil and empty are different values. */
  datatype Requirement = Requirement(key: string, operator: string, values: Option<seq<string>>)

  datatype Selector = Selector(matchLabels: Option<map<string, string>>, matchExpressions: Option<seq<Requirement>>)

  /** The wire form: key and operator may be absent. */
  datatype StateRequirement = StateRequirement(values: Option<seq<string>>, key: Option<string>, operator: Option<string>)

  datatype StateSelector = StateSelector(
    matchLabels: Option<map<string, string>>,
    matchExpressions: Option<seq<StateRequirement>>)

  function Items<T>(slice: Option<seq<T>>): seq<T> {
    if slice.Some? then slice.value else []
  }

  function Entries(labels: Option<map<string, string>>): map<string, string> {
    if labels.Some? then labels.value else map[]
  }

  // ----- the converters

  function RequirementToState(r: Requirement): StateRequirement {
    StateRequirement(r.values, Some(r.key), Some(r.operator))
  }

  method ConvertRequirementToMetaV1(r: StateRequirement) returns (req: Requirement)
    ensures req.values == r.values
    ensures r.key == Some(req.key) || (r.key.None? && req.key == "")
    ensures r.operator == Some(req.operator) || (r.operator.None? && req.operator == "")
    ensures req == RequirementToMeta(r)
  {
    req := Requirement("", "", r.values);
    if r.key.Some? {
      req := req.(key := r.key.value);
    }
    if r.operator.Some? {
      req := req.(operator := r.operator.value);
    }
  }

  /** Absent fields become empty strings. */
  function RequirementToMeta(r: StateRequirement): Requirement {
    Requirement(if r.key.Some? then r.key.value else "", if r.operator.Some? then r.operator.value else "", r.values)
  }

  function ToState(s: Selector): StateSelector {
    var exprs := Items(s.matchExpressions);
    StateSelector(s.matchLabels,
                  Some(seq(|exprs|, i requires 0 <= i < |exprs| => RequirementToState(exprs[i]))))
  }

  function ToMeta(s: StateSelector): Selector {
    var exprs := Items(s.matchExpressions);
    Selector(s.matchLabels,
             Some(seq(|exprs|, i requires 0 <= i < |exprs| => RequirementToMeta(exprs[i]))))
  }

  method ConvertLabelSelectorToState(s: Selector) returns (r: StateSelector)
    ensures r == ToState(s)
  {
    var exprs := Items(s.matchExpressions);
    var mapped := [];
    for i := 0 to |exprs|
      invariant |mapped| == i && forall j | 0 <= j < i :: mapped[j] == RequirementToState(exprs[j])
    {
      mapped := mapped + [RequirementToState(exprs[i])];
    }
    r := StateSelector(s.matchLabels, Some(mapped));
    assert mapped == ToState(s).matchExpressions.value;
  }

  method ConvertLabelSelectorToMetaV1(s: StateSelector) returns (r: Selector)
    ensures r == ToMeta(s)
  {
    var exprs := Items(s.matchExpressions);
    var mapped := [];
    for i := 0 to |exprs|
      invariant |mapped| == i && forall j | 0 <= j < i :: mapped[j] == RequirementToMeta(exprs[j])
    {
      var req := ConvertRequirementToMetaV1(exprs[i]);
      mapped := mapped + [req];
    }
    r := Selector(s.matchLabels, Some(mapped));
    assert mapped == ToMeta(s).matchExpressions.value;
  }

  // ----- the wire

  function NilIfEmpty<T>(slice: Option<seq<T>>): Option<seq<T>> {
    if slice == Some([]) then None else slice
  }

  /** Serialised and read back, empty lists and maps arrive as nil. */
  function Delivered(s: StateSelector): StateSelector {
    var exprs := Items(s.matchExpressions);
    StateSelector(if s.matchLabels == Some(map[]) then None else s.matchLabels,
                  NilIfEmpty(Some(seq(|exprs|, i requires 0 <= i < |exprs| =>
                               exprs[i].(values := NilIfEmpty(exprs[i].values))))))
  }

  /** What a selector says, nil and empty not told apart. */
  datatype Content = Content(labels: map<string, string>, requirements: seq<(string, string, seq<string>)>)

  function ContentOf(s: Selector): Content {
    var exprs := Items(s.matchExpressions);
    Content(Entries(s.matchLabels),
            seq(|exprs|, i requires 0 <= i < |exprs| => (exprs[i].key, exprs[i].operator, Items(exprs[i].values))))
  }

  /** Slices or maps that are equal, up to nil versus empty. */
  predicate SameSlice<T(==)>(a: Option<seq<T>>, b: Option<seq<T>>) {
    a == b || (a in {None, Some([])} && b in {None, Some([])})
  }

  predicate SameLabels(a: Option<map<string, string>>, b: Option<map<string, string>>) {
    a == b || (a in {None, Some(map[])} && b in {None, Some(map[])})
  }

  predicate SameRequirement(a: Requirement, b: Requirement) {
    a.key == b.key && a.operator == b.operator && SameSlice(a.values, b.values)
  }

  /** The same selector, field by field, up to nil versus empty. */
  predicate SameSelector(a: Selector, b: Selector) {
    && SameLabels(a.matchLabels, b.matchLabels)
    && ((a.matchExpressions in {None, Some([])} && b.matchExpressions in {None, Some([])})
        || (&& a.matchExpressions.Some? && b.matchExpressions.Some?
            && |a.matchExpressions.value| == |b.matchExpressions.value|
            && forall i | 0 <= i < |a.matchExpressions.value| ::
                 SameRequirement(a.matchExpressions.value[i], b.matchExpressions.value[i])))
  }

  /** What a selector says is the selector up to nil versus empty, no more and no less. */
  lemma ContentIsSelector(a: Selector, b: Selector)
    ensures ContentOf(a) == ContentOf(b) <==> SameSelector(a, b)
  {
    var xs, ys := Items(a.matchExpressions), Items(b.matchExpressions);
    if ContentOf(a) == ContentOf(b) {
      assert |xs| == |ContentOf(a).requirements| == |ys|;
      forall i | 0 <= i < |xs|
        ensures SameRequirement(xs[i], ys[i])
      {
        assert ContentOf(a).requirements[i] == ContentOf(b).requirements[i];
      }
    }
    if SameSelector(a, b) {
      assert |xs| == |ys| && forall i | 0 <= i < |xs| :: SameRequirement(xs[i], ys[i]);
      assert ContentOf(a).requirements == ContentOf(b).requirements;
    }
  }

  /** Sending a selector to a remote cluster and converting it back there gives the same
      selector, up to nil versus empty. */
  lemma RoundTrip(s: Selector)
    ensures SameSelector(ToMeta(Delivered(ToState(s))), s)
    ensures ContentOf(ToMeta(Delivered(ToState(s)))) == ContentOf(s)
  {
    var sent := ToState(s);
    var back := ToMeta(Delivered(sent));
    var exprs := Items(s.matchExpressions);
    assert |Items(back.matchExpressions)| == |exprs|;
    forall i | 0 <= i < |exprs|
      ensures SameRequirement(Items(back.matchExpressions)[i], exprs[i])
    {
      assert Items(sent.matchExpressions)[i] == RequirementToState(exprs[i]);
    }
    ContentIsSelector(back, s);
  }

  /** The other way round the conversion only makes absent keys and operators explicit. */
  lemma RoundTripFromWire(s: StateSelector)
    ensures ToState(ToMeta(s)).matchLabels == s.matchLabels
    ensures Items(ToState(ToMeta(s)).matchExpressions) == Items(s.matchExpressions) <==>
            forall r | r in Items(s.matchExpressions) :: r.key.Some? && r.operator.Some?
  {
    var exprs, back := Items(s.matchExpressions), Items(ToState(ToMeta(s)).matchExpressions);
    assert |back| == |exprs|;
    assert forall i | 0 <= i < |exprs| :: back[i] == RequirementToState(RequirementToMeta(exprs[i]));
    if back == exprs {
      forall r | r in exprs
        ensures r.key.Some? && r.operator.Some?
      {
        var i :| 0 <= i < |exprs| && exprs[i] == r;
        assert back[i] == r;
      }
    }
  }

  // ----- the lock key

  /** A hash of 32 bytes over a string, and a printer of selectors that does not tell nil from
      empty; both fixed, otherwise arbitrary. */
  type Hash = string -> seq<LeaseNames.byte>

  ghost predicate Wide(hash: Hash) {
    forall s :: |hash(s)| == 32
  }

  ghost function LeaseNameForSelector(hash: Hash, show: Content -> string, ns: string, s: Selector): string
    requires Wide(hash)
  {
    LeaseNames.LeaseName(hash(ns + show(ContentOf(s)))[0..24])
  }

  /** Every cluster contends on the same lease name for the same namespace and selector. */
  lemma LockKeysAgree(hash: Hash, show: Content -> string, ns: string, s: Selector)
    requires Wide(hash)
    ensures LeaseNameForSelector(hash, show, ns, ToMeta(Delivered(ToState(s)))) == LeaseNameForSelector(hash, show, ns, s)
    ensures |LeaseNameForSelector(hash, show, ns, s)| == 44
  {
    RoundTrip(s);
    LeaseNames.NamesAreValid(hash(ns + show(ContentOf(s)))[0..24]);
  }

  /** The name carries the first 24 bytes of the digest, no less and no more. */
  lemma NameIsDigestPrefix(hash: Hash, hash': Hash, show: Content -> string, ns: string, s: Selector)
    requires Wide(hash) && Wide(hash')
    ensures
      var input := ns + show(ContentOf(s));
      LeaseNameForSelector(hash, show, ns, s) == LeaseNameForSelector(hash', show, ns, s) <==>
        forall i | 0 <= i < 24 :: hash(input)[i] == hash'(input)[i]
  {
    var input := ns + show(ContentOf(s));
    var a, b := hash(input), hash'(input);
    LeaseNames.NamesAreLossless(a[0..24], b[0..24]);
    if a[0..24] == b[0..24] {
      forall i | 0 <= i < 24
        ensures a[i] == b[i]
      {
        assert a[0..24][i] == b[0..24][i];
      }
    }
  }

  /** A hash that tells this one input from all others. */
  function Telling(input: string): Hash {
    s => if s == input then seq(32, _ => 1) else seq(32, _ => 0)
  }

  lemma TellingTells(input: string, other: string)
    requires input != other
    ensures Wide(Telling(input)) && Telling(input)(input)[0..24] != Telling(input)(other)[0..24]
  {
    assert Telling(input)(input)[0..24][0] == 1 && Telling(input)(other)[0..24][0] == 0;
  }

  /** A selector prints as something that begins with an ampersand. */
  ghost predicate Ampersand(show: Content -> string) {
    forall c :: show(c) != "" && show(c)[0] == '&'
  }

  /** Two budgets share their lease name whatever the hash if and only if they have the same
      namespace and print the same selector; namespaces have no ampersand. */
  lemma KeysDifferExactly(show: Content -> string, ns: string, s: Selector, ns': string, s': Selector)
    requires Ampersand(show) && '&' !in ns && '&' !in ns'
    ensures (forall hash: Hash | Wide(hash) ::
               LeaseNameForSelector(hash, show, ns, s) == LeaseNameForSelector(hash, show, ns', s'))
            <==> ns == ns' && show(ContentOf(s)) == show(ContentOf(s'))
  {
    var shown, shown' := show(ContentOf(s)), show(ContentOf(s'));
    if ns + shown == ns' + shown' {
      LeaseNames.HashInputIsUnambiguous(ns, ns', shown, shown');
    } else {
      var hash := Telling(ns + shown);
      TellingTells(ns + shown, ns' + shown');
      LeaseNames.NamesAreLossless(hash(ns + shown)[0..24], hash(ns' + shown')[0..24]);
      assert LeaseNameForSelector(hash, show, ns, s) != LeaseNameForSelector(hash, show, ns', s');
    }
  }
}
