/** Values shared by both configuration flows: the dynamically typed values a
    form draft holds, Python's truthiness on them, the field names that carry
    a group index, and filtering of entity-id lists. */
module Values {

  datatype Option<+T> = None | Some(value: T) {
    /** `d.get(key, default)` once the lookup has been done. */
    function GetOr(default: T): T {
      match this
      case Some(v) => v
      case None => default
    }
  }

  /** A value submitted in a form draft or kept in a persisted record: a text,
      a toggle, or a list of entity ids (what the entity selector returns). */
  datatype Value = S(str: string) | B(flag: bool) | L(items: seq<string>)

  /** The `user_input` mapping a form submits: field name to value. */
  type Draft = map<string, Value>

  /** Python's `bool(v)`: empty texts and lists and `False` are false. */
  predicate Truthy(v: Value) {
    match v
    case S(s) => s != ""
    case B(b) => b
    case L(xs) => xs != []
  }

  /** `if user_input:` — a draft was given and it is not empty. */
  predicate Submitted(draft: Option<Draft>) {
    draft.Some? && draft.value != map[]
  }

  /** `d.get(key, default)`. */
  function Get(d: Draft, key: string, default: Value): Value {
    if key in d then d[key] else default
  }

  /** `for ent in v`: a list yields its ids and a text its characters; a toggle
      is never submitted for a list field and yields nothing. */
  function Items(v: Value): seq<string> {
    match v
    case L(xs) => xs
    case S(s) => seq(|s|, k requires 0 <= k < |s| => [s[k]])
    case B(_) => []
  }

  // ---------------------------------------------------------------------------
  // Decimal rendering of an index, as an f-string does it

  predicate IsDigit(c: char) {
    '0' <= c <= '9'
  }

  predicate AllDigits(s: string) {
    forall k :: 0 <= k < |s| ==> IsDigit(s[k])
  }

  function Digit(n: nat): (c: char)
    requires n < 10
    ensures IsDigit(c)
  {
    (48 + n) as char
  }

  /** `str(n)` for a natural number. */
  function NatToString(n: nat): (s: string)
    ensures |s| > 0 && AllDigits(s)
    ensures n >= 10 ==> |s| >= 2
  {
    if n < 10 then [Digit(n)] else NatToString(n / 10) + [Digit(n % 10)]
  }

  lemma {:induction false} NatToStringInjective(a: nat, b: nat)
    requires NatToString(a) == NatToString(b)
    ensures a == b
  {
    if a >= 10 && b >= 10 {
      var sa, sb := NatToString(a / 10), NatToString(b / 10);
      assert NatToString(a) == sa + [Digit(a % 10)];
      assert NatToString(b) == sb + [Digit(b % 10)];
      assert |sa| == |sb|;
      assert sa == NatToString(a)[..|sa|] == NatToString(b)[..|sb|] == sb;
      assert Digit(a % 10) == NatToString(a)[|sa|] == NatToString(b)[|sb|] == Digit(b % 10);
      NatToStringInjective(a / 10, b / 10);
    }
  }

  /** A run of digits followed by a non-digit can be split in one way only. */
  lemma DigitsSplit(a: string, s: string, b: string, t: string)
    requires AllDigits(a) && AllDigits(b)
    requires |s| > 0 && !IsDigit(s[0]) && |t| > 0 && !IsDigit(t[0])
    requires a + s == b + t
    ensures a == b && s == t
  {
    // the first non-digit sits at the same position on both sides
    var m := if |a| <= |b| then |a| else |b|;
    assert (a + s)[m] == (b + t)[m];
    assert |a| == |b|;
    assert a == (a + s)[..|a|] == (b + t)[..|b|] == b;
    assert s == (a + s)[|a|..] == (b + t)[|b|..] == t;
  }

  // ---------------------------------------------------------------------------
  // Field names that carry a group index

  function GroupNameKey(i: nat): string {
    "group_" + NatToString(i) + "_name"
  }

  function GroupEntitiesKey(i: nat): string {
    "group_" + NatToString(i) + "_entities"
  }

  function RemoveGroupKey(i: nat): string {
    "remove_group_" + NatToString(i)
  }

  /** The name a group gets when none was submitted: `f"Group {i+1}"`. */
  function DefaultGroupName(i: nat): string {
    "Group " + NatToString(i + 1)
  }

  /** Strips the common prefix `p` from two equal strings. */
  lemma StripPrefix(p: string, x: string, y: string)
    requires p + x == p + y
    ensures x == y
  {
    assert x == (p + x)[|p|..] == (p + y)[|p|..] == y;
  }

  /** The indexed field names never collide: each name determines its kind and
      its index. */
  lemma IndexedKeysDistinct(i: nat, j: nat)
    ensures GroupNameKey(i) != GroupEntitiesKey(j)
    ensures GroupNameKey(i) == GroupNameKey(j) ==> i == j
    ensures GroupEntitiesKey(i) == GroupEntitiesKey(j) ==> i == j
    ensures RemoveGroupKey(i) == RemoveGroupKey(j) ==> i == j
    ensures RemoveGroupKey(i) != GroupNameKey(j) && RemoveGroupKey(i) != GroupEntitiesKey(j)
  {
    var a, b := NatToString(i), NatToString(j);
    var p := "group_";
    assert GroupNameKey(i) == p + (a + "_name");
    assert GroupNameKey(j) == p + (b + "_name");
    assert GroupEntitiesKey(i) == p + (a + "_entities");
    assert GroupEntitiesKey(j) == p + (b + "_entities");
    if GroupNameKey(i) == GroupEntitiesKey(j) {
      StripPrefix(p, a + "_name", b + "_entities");
      DigitsSplit(a, "_name", b, "_entities");
      assert false;
    }
    if GroupNameKey(i) == GroupNameKey(j) {
      StripPrefix(p, a + "_name", b + "_name");
      DigitsSplit(a, "_name", b, "_name");
      NatToStringInjective(i, j);
    }
    if GroupEntitiesKey(i) == GroupEntitiesKey(j) {
      StripPrefix(p, a + "_entities", b + "_entities");
      DigitsSplit(a, "_entities", b, "_entities");
      NatToStringInjective(i, j);
    }
    if RemoveGroupKey(i) == RemoveGroupKey(j) {
      StripPrefix("remove_group_", a, b);
      NatToStringInjective(i, j);
    }
    assert RemoveGroupKey(i)[0] == 'r';
    assert GroupNameKey(j)[0] == 'g' && GroupEntitiesKey(j)[0] == 'g';
  }

  /** Every indexed field name starts with `g` or `r`. */
  predicate IndexedInitial(k: string) {
    |k| > 0 && (k[0] == 'g' || k[0] == 'r')
  }

  lemma IndexedKeysInitial(i: nat)
    ensures IndexedInitial(GroupNameKey(i))
    ensures IndexedInitial(GroupEntitiesKey(i))
    ensures IndexedInitial(RemoveGroupKey(i))
  {
  }

  // ---------------------------------------------------------------------------
  // Filtering a list of ids, keeping the order

  /** `if ent`: an id counts only when it is not empty. */
  predicate NonEmpty(id: string) {
    id != ""
  }

  /** `[x for x in s if p(x)]`. */
  function Keep(s: seq<string>, p: string -> bool): seq<string> {
    if s == [] then [] else Keep(s[..|s| - 1], p) + (if p(s[|s| - 1]) then [s[|s| - 1]] else [])
  }

  /** What is kept is exactly what is in the list and passes the filter. */
  lemma {:induction false} KeepMembers(s: seq<string>, p: string -> bool)
    ensures |Keep(s, p)| <= |s|
    ensures forall x :: x in Keep(s, p) <==> x in s && p(x)
  {
    if s != [] {
      var init := s[..|s| - 1];
      KeepMembers(init, p);
      assert s == init + [s[|s| - 1]];
    }
  }

  /** Filtering distributes over concatenation: what is kept keeps its order. */
  lemma {:induction false} KeepAppend(a: seq<string>, b: seq<string>, p: string -> bool)
    ensures Keep(a + b, p) == Keep(a, p) + Keep(b, p)
  {
    if b != [] {
      var b' := b[..|b| - 1];
      assert (a + b)[..|a + b| - 1] == a + b';
      KeepAppend(a, b', p);
    } else {
      assert a + b == a;
    }
  }

  /** A list whose every id passes the filter is kept whole. */
  lemma {:induction false} KeepAllPass(s: seq<string>, p: string -> bool)
    requires forall k :: 0 <= k < |s| ==> p(s[k])
    ensures Keep(s, p) == s
  {
    if s != [] {
      KeepAllPass(s[..|s| - 1], p);
      assert s[..|s| - 1] + [s[|s| - 1]] == s;
    }
  }

  /** Filtering twice is filtering once. */
  lemma KeepIdempotent(s: seq<string>, p: string -> bool)
    ensures Keep(Keep(s, p), p) == Keep(s, p)
  {
    var r := Keep(s, p);
    KeepMembers(s, p);
    forall k | 0 <= k < |r| ensures p(r[k]) {
      assert r[k] in r;
    }
    KeepAllPass(r, p);
  }
}
