/** Version precedence and ranges (packages/plugin-sdk/src/semver.ts). */
module Semver {
  import opened Text

  datatype Identifier = Number(n: nat) | Word(s: string)

  datatype Version = Version(major: nat, minor: nat, patch: nat, prerelease: seq<Identifier>)

  // ----- comparing -----

  /** `a < b` on strings: by the first character that differs, else the shorter one first. */
  predicate StringLess(a: string, b: string) {
    if b == "" then false
    else if a == "" then true
    else if a[0] != b[0] then a[0] < b[0]
    else StringLess(a[1..], b[1..])
  }

  function CompareIdentifiers(left: Identifier, right: Identifier): int {
    match (left, right)
    case (Number(l), Number(r)) => if l < r then -1 else 1
    case (Number(_), Word(_)) => -1
    case (Word(_), Number(_)) => 1
    case (Word(l), Word(r)) => if StringLess(l, r) then -1 else 1
  }

  /** The comparison of two non-empty prereleases from position `i` on. */
  function CompareFrom(a: seq<Identifier>, b: seq<Identifier>, i: nat): int
    requires i <= |a| && i <= |b|
    decreases |a| - i
  {
    if i == |a| || i == |b| then if |a| == |b| then 0 else if |a| < |b| then -1 else 1
    else if a[i] == b[i] then CompareFrom(a, b, i + 1)
    else CompareIdentifiers(a[i], b[i])
  }

  function ComparePrereleaseOf(a: seq<Identifier>, b: seq<Identifier>): int {
    if a == [] && b == [] then 0
    else if a == [] then 1
    else if b == [] then -1
    else CompareFrom(a, b, 0)
  }

  method ComparePrerelease(a: seq<Identifier>, b: seq<Identifier>) returns (order: int)
    ensures order == ComparePrereleaseOf(a, b)
  {
    if |a| == 0 && |b| == 0 {
      return 0;
    }
    if |a| == 0 {
      return 1;
    }
    if |b| == 0 {
      return -1;
    }
    var shared := if |a| < |b| then |a| else |b|;
    for index := 0 to shared
      invariant CompareFrom(a, b, 0) == CompareFrom(a, b, index)
    {
      if a[index] == b[index] {
        continue;
      }
      return CompareIdentifiers(a[index], b[index]);
    }
    if |a| == |b| {
      return 0;
    }
    order := if |a| < |b| then -1 else 1;
  }

  function Compare(a: Version, b: Version): int {
    if a.major != b.major then if a.major < b.major then -1 else 1
    else if a.minor != b.minor then if a.minor < b.minor then -1 else 1
    else if a.patch != b.patch then if a.patch < b.patch then -1 else 1
    else ComparePrereleaseOf(a.prerelease, b.prerelease)
  }

  // ----- precedence as section 11 of Semantic Versioning 2.0.0 words it -----

  /** Numbers numerically, words in character order, numbers below words. */
  ghost predicate LowerIdentifier(x: Identifier, y: Identifier) {
    match (x, y)
    case (Number(l), Number(r)) => l < r
    case (Number(_), Word(_)) => true
    case (Word(_), Number(_)) => false
    case (Word(l), Word(r)) => LowerWord(l, r)
  }

  /** The first character that differs decides; when none does, the shorter word is lower. */
  ghost predicate LowerWord(l: string, r: string) {
    exists k :: LowerAt(l, r, k)
  }

  /** The first `k` characters are the same, and the next one decides. */
  predicate LowerAt(l: string, r: string, k: nat) {
    k <= |l| && k < |r| && l[..k] == r[..k] && (k < |l| ==> l[k] < r[k])
  }

  /** The first field that differs decides; when none does, the larger set of fields is higher. */
  ghost predicate LowerFields(a: seq<Identifier>, b: seq<Identifier>) {
    exists k :: 0 <= k <= |a| && k <= |b| && a[..k] == b[..k] && k < |b| && (k < |a| ==> LowerIdentifier(a[k], b[k]))
  }

  ghost predicate Precedes(a: Version, b: Version) {
    || a.major < b.major
    || (a.major == b.major && a.minor < b.minor)
    || (a.major == b.major && a.minor == b.minor && a.patch < b.patch)
    || (SameTriple(a, b) && a.prerelease != [] && (b.prerelease == [] || LowerFields(a.prerelease, b.prerelease)))
  }

  predicate SameTriple(a: Version, b: Version) {
    a.major == b.major && a.minor == b.minor && a.patch == b.patch
  }

  // ----- ranges -----

  datatype Operator = Less | LessEqual | Greater | GreaterEqual | Equal

  datatype Comparator = Comparator(operator: Operator, version: Version)

  /** A token of a range: what the token's text was read as. */
  datatype Token = Any | Caret(base: Version) | Tilde(base: Version) | Plain(comparator: Comparator) | Unreadable

  datatype Resolved = Comparators(list: seq<Comparator>) | Malformed

  datatype RangeOutcome = Answer(satisfied: bool) | NotUnderstood

  function CaretUpperBound(base: Version): Version {
    if base.major > 0 then Version(base.major + 1, 0, 0, [])
    else if base.minor > 0 then Version(0, base.minor + 1, 0, [])
    else Version(0, 0, base.patch + 1, [])
  }

  function TildeUpperBound(base: Version): Version {
    Version(base.major, base.minor + 1, 0, [])
  }

  function Desugar(token: Token): Resolved {
    match token
    case Caret(base) => Comparators([Comparator(GreaterEqual, base), Comparator(Less, CaretUpperBound(base))])
    case Tilde(base) => Comparators([Comparator(GreaterEqual, base), Comparator(Less, TildeUpperBound(base))])
    case Plain(comparator) => Comparators([comparator])
    case _ => Malformed
  }

  predicate SatisfiesComparator(version: Version, c: Comparator) {
    var order := Compare(version, c.version);
    match c.operator
    case Less => order < 0
    case LessEqual => order <= 0
    case Greater => order > 0
    case GreaterEqual => order >= 0
    case Equal => order == 0
  }

  /** All comparators hold, and a prerelease is named when the version is one. */
  predicate AlternativeHolds(version: Version, list: seq<Comparator>) {
    && (forall c <- list :: SatisfiesComparator(version, c))
    && (version.prerelease == [] || exists c <- list :: c.version.prerelease != [] && SameTriple(version, c.version))
  }

  /** The comparators of the first `n` tokens. */
  function ResolveUpTo(tokens: seq<Token>, n: nat): Resolved
    requires n <= |tokens|
  {
    if n == 0 then Comparators([])
    else match ResolveUpTo(tokens, n - 1)
      case Malformed => Malformed
      case Comparators(list) =>
        match Desugar(tokens[n - 1])
        case Malformed => Malformed
        case Comparators(more) => Comparators(list + more)
  }

  /** One `||` branch. `*` is only meaningful alone. */
  function Resolve(tokens: seq<Token>): Resolved {
    if tokens == [] then Malformed else if tokens == [Any] then Comparators([]) else ResolveUpTo(tokens, |tokens|)
  }

  method ResolveAlternative(tokens: seq<Token>) returns (r: Resolved)
    ensures r == Resolve(tokens)
  {
    if |tokens| == 0 {
      return Malformed;
    }
    var comparators: seq<Comparator> := [];
    for i := 0 to |tokens|
      invariant tokens != [Any] || i == 0
      invariant ResolveUpTo(tokens, i) == Comparators(comparators)
    {
      var token := tokens[i];
      if token == Any {
        if |tokens| != 1 {
          StaysMalformed(tokens, i + 1);
          return Malformed;
        }
        assert tokens == [Any];
        return Comparators([]);
      }
      var desugared := Desugar(token);
      if desugared.Malformed? {
        StaysMalformed(tokens, i + 1);
        return Malformed;
      }
      comparators := comparators + desugared.list;
    }
    r := Comparators(comparators);
  }

  lemma {:induction false} StaysMalformed(tokens: seq<Token>, n: nat)
    requires n <= |tokens| && ResolveUpTo(tokens, n).Malformed?
    ensures ResolveUpTo(tokens, |tokens|).Malformed?
    decreases |tokens| - n
  {
    if n < |tokens| {
      StaysMalformed(tokens, n + 1);
    }
  }

  /** The answer when the alternatives from `i` on are left to read. */
  function EvaluateFrom(version: Version, alternatives: seq<seq<Token>>, i: nat, any: bool): RangeOutcome
    decreases |alternatives| - i
  {
    if i >= |alternatives| then Answer(any)
    else match Resolve(alternatives[i])
      case Malformed => NotUnderstood
      case Comparators(list) =>
        if list == [] && version.prerelease == [] then Answer(true)
        else EvaluateFrom(version, alternatives, i + 1, any || (list != [] && AlternativeHolds(version, list)))
  }

  method Evaluate(version: Version, alternatives: seq<seq<Token>>) returns (outcome: RangeOutcome)
    ensures outcome == EvaluateFrom(version, alternatives, 0, false)
  {
    var anySatisfied := false;
    for i := 0 to |alternatives|
      invariant EvaluateFrom(version, alternatives, 0, false) == EvaluateFrom(version, alternatives, i, anySatisfied)
    {
      var resolved := ResolveAlternative(alternatives[i]);
      if resolved.Malformed? {
        return NotUnderstood;
      }
      if |resolved.list| == 0 {
        if |version.prerelease| == 0 {
          return Answer(true);
        }
        continue;
      }
      if AlternativeHolds(version, resolved.list) {
        anySatisfied := true;
      }
    }
    outcome := Answer(anySatisfied);
  }

  // ----- the order -----

  lemma LowerBehind(a: string, b: string, k: nat)
    requires a != "" && b != "" && a[0] == b[0]
    ensures LowerAt(a, b, k + 1) <==> LowerAt(a[1..], b[1..], k)
  {
    if k < |a| && k + 1 < |b| {
      assert a[..k + 1] == [a[0]] + a[1..][..k] && b[..k + 1] == [b[0]] + b[1..][..k];
      assert a[..k + 1][1..] == a[1..][..k] && b[..k + 1][1..] == b[1..][..k];
    }
  }

  lemma LowerAtFirst(a: string, b: string, k: nat)
    requires LowerAt(a, b, k) && k > 0
    ensures a != "" && b != "" && a[0] == b[0]
  {
    assert a[..k][0] == b[..k][0];
  }

  lemma {:induction false} StringLessIs(a: string, b: string)
    ensures StringLess(a, b) <==> LowerWord(a, b)
  {
    if a != "" && b != "" && a[0] == b[0] {
      StringLessIs(a[1..], b[1..]);
      if k :| LowerAt(a[1..], b[1..], k) {
        LowerBehind(a, b, k);
      }
      if k: nat :| LowerAt(a, b, k) {
        LowerBehind(a, b, k - 1);
      }
    } else {
      if k: nat :| LowerAt(a, b, k) && k > 0 {
        LowerAtFirst(a, b, k);
      }
      assert LowerAt(a, b, 0) <==> StringLess(a, b);
    }
  }

  lemma {:induction false} StringLessTotal(a: string, b: string)
    ensures StringLess(a, b) ==> !StringLess(b, a)
    ensures !StringLess(a, b) && !StringLess(b, a) <==> a == b
  {
    if a != "" && b != "" {
      StringLessTotal(a[1..], b[1..]);
      assert a == [a[0]] + a[1..] && b == [b[0]] + b[1..];
    }
  }

  lemma {:induction false} StringLessTransitive(a: string, b: string, c: string)
    requires StringLess(a, b) && StringLess(b, c)
    ensures StringLess(a, c)
  {
    if a != "" && a[0] == b[0] == c[0] {
      StringLessTransitive(a[1..], b[1..], c[1..]);
    }
  }

  lemma IdentifiersTotal(x: Identifier, y: Identifier)
    ensures x != y ==> CompareIdentifiers(x, y) == -CompareIdentifiers(y, x) && CompareIdentifiers(x, y) in {-1, 1}
    ensures x != y ==> (CompareIdentifiers(x, y) < 0 <==> LowerIdentifier(x, y))
  {
    if x.Word? && y.Word? {
      StringLessTotal(x.s, y.s);
      StringLessIs(x.s, y.s);
    }
  }

  lemma IdentifiersTransitive(x: Identifier, y: Identifier, z: Identifier)
    requires x != y && y != z && CompareIdentifiers(x, y) < 0 && CompareIdentifiers(y, z) < 0
    ensures x != z && CompareIdentifiers(x, z) < 0
  {
    if x.Word? && y.Word? && z.Word? {
      StringLessTransitive(x.s, y.s, z.s);
      StringLessTotal(x.s, z.s);
    }
  }

  lemma {:induction false} FieldsTotal(a: seq<Identifier>, b: seq<Identifier>, i: nat)
    requires i <= |a| && i <= |b| && a[..i] == b[..i]
    ensures CompareFrom(a, b, i) == -CompareFrom(b, a, i) && CompareFrom(a, b, i) in {-1, 0, 1}
    ensures CompareFrom(a, b, i) == 0 <==> a == b
    ensures CompareFrom(a, b, i) < 0 <==> LowerFields(a, b)
    decreases |a| - i
  {
    if i == |a| || i == |b| {
      assert i == |a| == |b| ==> a[..i] == a && b[..i] == b;
      assert i < |b| ==> LowerFields(a, b);
      forall k | 0 <= k <= |a| && k <= |b| && a[..k] == b[..k] && k < |b| && (k < |a| ==> LowerIdentifier(a[k], b[k])) ensures i < |b| {
        FirstDifference(a, b, i, k);
      }
    } else if a[i] == b[i] {
      assert a[..i + 1] == a[..i] + [a[i]] && b[..i + 1] == b[..i] + [b[i]];
      FieldsTotal(a, b, i + 1);
    } else {
      IdentifiersTotal(a[i], b[i]);
      assert CompareFrom(a, b, i) < 0 ==> LowerFields(a, b);
      forall k | 0 <= k <= |a| && k <= |b| && a[..k] == b[..k] && k < |b| && (k < |a| ==> LowerIdentifier(a[k], b[k]))
        ensures CompareFrom(a, b, i) < 0
      {
        FirstDifference(a, b, i, k);
      }
    }
  }

  /** The place of the first difference is unique. */
  lemma FirstDifference(a: seq<Identifier>, b: seq<Identifier>, i: nat, k: nat)
    requires i <= |a| && i <= |b| && a[..i] == b[..i] && (i < |a| && i < |b| ==> a[i] != b[i])
    requires k <= |a| && k < |b| && a[..k] == b[..k] && (k < |a| ==> LowerIdentifier(a[k], b[k]))
    ensures k == i
  {
    if k < |a| {
      IdentifiersTotal(b[k], a[k]);
      IrreflexiveIdentifier(a[k]);
    }
    forall j | 0 <= j < i ensures a[j] == b[j] {
      assert a[..i][j] == b[..i][j];
    }
    forall j | 0 <= j < k ensures a[j] == b[j] {
      assert a[..k][j] == b[..k][j];
    }
  }

  lemma IrreflexiveIdentifier(x: Identifier)
    ensures !LowerIdentifier(x, x)
  {
    if x.Word? {
      StringLessIs(x.s, x.s);
      StringLessTotal(x.s, x.s);
    }
  }

  lemma {:induction false} FieldsTransitive(a: seq<Identifier>, b: seq<Identifier>, c: seq<Identifier>, i: nat)
    requires i <= |a| && i <= |b| && i <= |c|
    requires CompareFrom(a, b, i) < 0 && CompareFrom(b, c, i) < 0
    ensures CompareFrom(a, c, i) < 0
    decreases |a| - i
  {
    if i < |a| && i < |b| && i < |c| {
      if a[i] == b[i] == c[i] {
        FieldsTransitive(a, b, c, i + 1);
      } else if a[i] != b[i] && b[i] != c[i] {
        IdentifiersTransitive(a[i], b[i], c[i]);
      }
    }
  }

  /** Precedence is a total order that tells all versions apart: it is antisymmetric, and zero only on equal versions. */
  lemma CompareIsTotal(a: Version, b: Version)
    ensures Compare(a, b) == -Compare(b, a) && Compare(a, b) in {-1, 0, 1}
    ensures Compare(a, b) == 0 <==> a == b
  {
    if a.prerelease != [] && b.prerelease != [] {
      FieldsTotal(a.prerelease, b.prerelease, 0);
    }
  }

  lemma CompareIsTransitive(a: Version, b: Version, c: Version)
    requires Compare(a, b) <= 0 && Compare(b, c) <= 0
    ensures Compare(a, c) <= 0
  {
    CompareIsTotal(a, b);
    CompareIsTotal(b, c);
    if Compare(a, b) < 0 && Compare(b, c) < 0 && a.prerelease != [] && b.prerelease != [] && c.prerelease != [] && SameTriple(a, b) && SameTriple(b, c) {
      FieldsTransitive(a.prerelease, b.prerelease, c.prerelease, 0);
    }
  }

  /** It is the precedence of section 11. */
  lemma CompareIsPrecedence(a: Version, b: Version)
    ensures Compare(a, b) < 0 <==> Precedes(a, b)
  {
    if a.prerelease != [] && b.prerelease != [] {
      FieldsTotal(a.prerelease, b.prerelease, 0);
    }
  }

  // ----- what ranges mean -----

  /** The components up to the leftmost one that is not zero are the same. */
  predicate SameLeftmost(base: Version, v: Version) {
    if base.major > 0 then v.major == base.major
    else if base.minor > 0 then v.major == 0 && v.minor == base.minor
    else v.major == 0 && v.minor == 0 && v.patch == base.patch
  }

  /** A version inside `[base, upper)`: a release must lie in the box `inside`, a prerelease must be of the base's own
      triple, which then has to be a prerelease itself. */
  lemma CaretMeans(base: Version, v: Version)
    ensures AlternativeHolds(v, Desugar(Caret(base)).list) <==>
            Compare(v, base) >= 0 &&
            if v.prerelease == [] then SameLeftmost(base, v) else base.prerelease != [] && SameTriple(v, base)
  {
    TwoComparators(v, base, CaretUpperBound(base));
  }

  lemma TildeMeans(base: Version, v: Version)
    ensures AlternativeHolds(v, Desugar(Tilde(base)).list) <==>
            Compare(v, base) >= 0 &&
            if v.prerelease == [] then v.major == base.major && v.minor == base.minor else base.prerelease != [] && SameTriple(v, base)
  {
    TwoComparators(v, base, TildeUpperBound(base));
  }

  lemma TwoComparators(v: Version, base: Version, upper: Version)
    requires upper.prerelease == []
    ensures AlternativeHolds(v, [Comparator(GreaterEqual, base), Comparator(Less, upper)]) <==>
            && Compare(v, base) >= 0 && Compare(v, upper) < 0
            && (v.prerelease == [] || (base.prerelease != [] && SameTriple(v, base)))
  {
    var list := [Comparator(GreaterEqual, base), Comparator(Less, upper)];
    assert list[0] in list && list[1] in list;
    assert forall c <- list :: c == list[0] || c == list[1];
  }

  /** Among releases, an alternative accepts everything between two versions that it accepts. */
  lemma AlternativeIsConvex(list: seq<Comparator>, low: Version, v: Version, high: Version)
    requires low.prerelease == [] && v.prerelease == [] && high.prerelease == []
    requires AlternativeHolds(low, list) && AlternativeHolds(high, list)
    requires Compare(low, v) <= 0 && Compare(v, high) <= 0
    ensures AlternativeHolds(v, list)
  {
    forall c <- list ensures SatisfiesComparator(v, c) {
      assert SatisfiesComparator(low, c) && SatisfiesComparator(high, c);
      BetweenSatisfies(c, low, v, high);
    }
  }

  lemma BetweenSatisfies(c: Comparator, low: Version, v: Version, high: Version)
    requires SatisfiesComparator(low, c) && SatisfiesComparator(high, c)
    requires Compare(low, v) <= 0 && Compare(v, high) <= 0
    ensures SatisfiesComparator(v, c)
  {
    CompareIsTotal(v, c.version);
    CompareIsTotal(low, c.version);
    CompareIsTotal(high, c.version);
    CompareIsTotal(low, v);
    CompareIsTotal(v, high);
    if Compare(v, c.version) > 0 {
      CompareIsTransitive(c.version, v, high);
      CompareIsTotal(c.version, high);
    }
    if Compare(v, c.version) < 0 {
      CompareIsTransitive(low, v, c.version);
    }
  }

  ghost predicate Holds(v: Version, tokens: seq<Token>) {
    Resolve(tokens).Comparators? && AlternativeHolds(v, Resolve(tokens).list)
  }

  ghost predicate IsWildcard(v: Version, tokens: seq<Token>) {
    Resolve(tokens) == Comparators([]) && v.prerelease == []
  }

  /** The outcome of a whole range: it is not understood exactly when a malformed alternative stands before any `*` that
      already accepts the version, and otherwise it is satisfied exactly when some alternative holds. */
  lemma {:induction false} EvaluateMeans(v: Version, alternatives: seq<seq<Token>>, i: nat, any: bool)
    requires i <= |alternatives|
    ensures match EvaluateFrom(v, alternatives, i, any)
            case NotUnderstood =>
              exists k :: i <= k < |alternatives| && Resolve(alternatives[k]).Malformed? && forall j :: i <= j < k ==> !IsWildcard(v, alternatives[j])
            case Answer(satisfied) =>
              && (satisfied <==> any || exists k :: i <= k < |alternatives| && Holds(v, alternatives[k]))
              && forall k :: i <= k < |alternatives| && Resolve(alternatives[k]).Malformed? ==> exists j :: i <= j < k && IsWildcard(v, alternatives[j])
    decreases |alternatives| - i
  {
    if i < |alternatives| && Resolve(alternatives[i]).Comparators? {
      var list := Resolve(alternatives[i]).list;
      if list == [] && v.prerelease == [] {
        assert Holds(v, alternatives[i]) && IsWildcard(v, alternatives[i]);
      } else {
        assert Holds(v, alternatives[i]) <==> list != [] && AlternativeHolds(v, list);
        EvaluateMeans(v, alternatives, i + 1, any || (list != [] && AlternativeHolds(v, list)));
      }
    }
  }

  // ----- prereleases have to be asked for -----

  /** The token names a prerelease of the version's own triple. */
  predicate Names(token: Token, v: Version) {
    match token
    case Caret(base) => base.prerelease != [] && SameTriple(v, base)
    case Tilde(base) => base.prerelease != [] && SameTriple(v, base)
    case Plain(c) => c.version.prerelease != [] && SameTriple(v, c.version)
    case _ => false
  }

  /** The bounds that a token adds are releases, so that a prerelease comes from the token itself. */
  lemma {:induction false} NamedByToken(tokens: seq<Token>, n: nat, c: Comparator, v: Version)
    requires n <= |tokens| && ResolveUpTo(tokens, n).Comparators? && c in ResolveUpTo(tokens, n).list
    requires c.version.prerelease != [] && SameTriple(v, c.version)
    ensures exists token <- tokens :: Names(token, v)
  {
    if c in ResolveUpTo(tokens, n - 1).list {
      NamedByToken(tokens, n - 1, c, v);
    } else {
      assert c in Desugar(tokens[n - 1]).list;
      assert Names(tokens[n - 1], v);
    }
  }

  /** A prerelease satisfies a range if and only if the range is understood and some alternative holds, and then one of the
      tokens of that alternative names a prerelease of its triple: `*` and ranges over releases never accept one. */
  lemma PrereleaseIsNamed(v: Version, alternatives: seq<seq<Token>>)
    requires v.prerelease != []
    ensures EvaluateFrom(v, alternatives, 0, false) == Answer(true)
       <==> && (forall k :: 0 <= k < |alternatives| ==> Resolve(alternatives[k]).Comparators?)
            && exists k :: 0 <= k < |alternatives| && Holds(v, alternatives[k]) && exists token <- alternatives[k] :: Names(token, v)
  {
    EvaluateMeans(v, alternatives, 0, false);
    forall k | 0 <= k < |alternatives| && Holds(v, alternatives[k]) ensures exists token <- alternatives[k] :: Names(token, v) {
      HeldIsNamed(v, alternatives[k]);
    }
  }

  lemma HeldIsNamed(v: Version, tokens: seq<Token>)
    requires v.prerelease != [] && Holds(v, tokens)
    ensures exists token <- tokens :: Names(token, v)
  {
    var c :| c in Resolve(tokens).list && c.version.prerelease != [] && SameTriple(v, c.version);
    NamedByToken(tokens, |tokens|, c, v);
  }

  // ----- ranges by their tokens -----

  /** What a comparator asks of a version, by precedence. */
  ghost predicate Asks(c: Comparator, v: Version) {
    match c.operator
    case Less => Precedes(v, c.version)
    case LessEqual => v == c.version || Precedes(v, c.version)
    case Greater => Precedes(c.version, v)
    case GreaterEqual => v == c.version || Precedes(c.version, v)
    case Equal => v == c.version
  }

  lemma ComparatorMeans(v: Version, c: Comparator)
    ensures SatisfiesComparator(v, c) <==> Asks(c, v)
  {
    CompareIsTotal(v, c.version);
    CompareIsPrecedence(v, c.version);
    CompareIsPrecedence(c.version, v);
  }

  /** The release where what a token allows ends. */
  predicate EndsAt(token: Token, upper: Version) {
    && upper.prerelease == []
    && match token
       case Caret(base) =>
         (upper.major, upper.minor, upper.patch) == if base.major != 0 then (base.major + 1, 0, 0)
                                                    else if base.minor != 0 then (0, base.minor + 1, 0)
                                                    else (0, 0, base.patch + 1)
       case Tilde(base) => (upper.major, upper.minor, upper.patch) == (base.major, base.minor + 1, 0)
       case _ => false
  }

  /** What a token asks of a version. */
  ghost predicate Admits(token: Token, v: Version) {
    match token
    case Any => false
    case Unreadable => false
    case Plain(c) => Asks(c, v)
    case Caret(base) => !Precedes(v, base) && exists upper :: EndsAt(token, upper) && Precedes(v, upper)
    case Tilde(base) => !Precedes(v, base) && exists upper :: EndsAt(token, upper) && Precedes(v, upper)
  }

  predicate Readable(token: Token) {
    token.Caret? || token.Tilde? || token.Plain?
  }

  /** `*` is understood alone, and other tokens are in company. */
  predicate Understood(tokens: seq<Token>) {
    tokens == [Any] || (tokens != [] && forall token <- tokens :: Readable(token))
  }

  /** `*` accepts every release; other tokens accept what all of them admit, and a prerelease only if one of them names it. */
  ghost predicate Accepts(tokens: seq<Token>, v: Version) {
    if tokens == [Any] then v.prerelease == []
    else
      && Understood(tokens) && (forall token <- tokens :: Admits(token, v))
      && (v.prerelease == [] || exists token <- tokens :: Names(token, v))
  }

  /** A list of comparators says what these tokens do. */
  ghost predicate Says(list: seq<Comparator>, tokens: seq<Token>, v: Version) {
    && ((forall c <- list :: SatisfiesComparator(v, c)) <==> forall token <- tokens :: Admits(token, v))
    && ((exists c <- list :: c.version.prerelease != [] && SameTriple(v, c.version)) <==> exists token <- tokens :: Names(token, v))
  }

  lemma BoundedSays(token: Token, base: Version, upper: Version, v: Version)
    requires token == Caret(base) || token == Tilde(base)
    requires EndsAt(token, upper) && forall u :: EndsAt(token, u) ==> u == upper
    ensures Says([Comparator(GreaterEqual, base), Comparator(Less, upper)], [token], v)
  {
    var list := [Comparator(GreaterEqual, base), Comparator(Less, upper)];
    assert list[0] in list && list[1] in list && forall c <- list :: c == list[0] || c == list[1];
    ComparatorMeans(v, list[1]);
    CompareIsTotal(v, base);
    CompareIsPrecedence(v, base);
    assert token in [token];
  }

  lemma TokenSays(token: Token, v: Version)
    requires Readable(token)
    ensures Desugar(token).Comparators? && Says(Desugar(token).list, [token], v)
  {
    assert token in [token];
    match token {
      case Caret(base) => BoundedSays(token, base, CaretUpperBound(base), v);
      case Tilde(base) => BoundedSays(token, base, TildeUpperBound(base), v);
      case Plain(c) =>
        ComparatorMeans(v, c);
        assert c in [c];
    }
  }

  /** The comparators of a list of tokens are those of its tokens. */
  lemma {:induction false} ListIs(tokens: seq<Token>, n: nat, c: Comparator)
    requires n <= |tokens| && ResolveUpTo(tokens, n).Comparators?
    ensures c in ResolveUpTo(tokens, n).list <==> exists k :: 0 <= k < n && Of(tokens[k], c)
  {
    if n > 0 {
      ListIs(tokens, n - 1, c);
    }
  }

  predicate Of(token: Token, c: Comparator) {
    Desugar(token).Comparators? && c in Desugar(token).list
  }

  lemma {:induction false} ReadableUpTo(tokens: seq<Token>, n: nat)
    requires n <= |tokens|
    ensures ResolveUpTo(tokens, n).Comparators? <==> forall k :: 0 <= k < n ==> Readable(tokens[k])
    ensures ResolveUpTo(tokens, n) == Comparators([]) <==> n == 0
  {
    if n > 0 {
      ReadableUpTo(tokens, n - 1);
      assert Desugar(tokens[n - 1]).Comparators? <==> Readable(tokens[n - 1]);
    }
  }

  lemma AllAdmit(tokens: seq<Token>, v: Version)
    requires ResolveUpTo(tokens, |tokens|).Comparators? && forall token <- tokens :: Readable(token)
    ensures (forall c <- ResolveUpTo(tokens, |tokens|).list :: SatisfiesComparator(v, c)) <==> forall token <- tokens :: Admits(token, v)
  {
    var list := ResolveUpTo(tokens, |tokens|).list;
    if forall c <- list :: SatisfiesComparator(v, c) {
      forall token <- tokens ensures Admits(token, v) {
        TokenSays(token, v);
        forall c <- Desugar(token).list ensures SatisfiesComparator(v, c) {
          ListIs(tokens, |tokens|, c);
          var k :| 0 <= k < |tokens| && tokens[k] == token;
          assert Of(tokens[k], c);
        }
        assert token in [token];
      }
    }
    if forall token <- tokens :: Admits(token, v) {
      forall c <- list ensures SatisfiesComparator(v, c) {
        ListIs(tokens, |tokens|, c);
        var k :| 0 <= k < |tokens| && Of(tokens[k], c);
        TokenSays(tokens[k], v);
      }
    }
  }

  lemma OneNames(tokens: seq<Token>, v: Version)
    requires ResolveUpTo(tokens, |tokens|).Comparators? && forall token <- tokens :: Readable(token)
    ensures (exists c <- ResolveUpTo(tokens, |tokens|).list :: c.version.prerelease != [] && SameTriple(v, c.version))
       <==> exists token <- tokens :: Names(token, v)
  {
    var list := ResolveUpTo(tokens, |tokens|).list;
    if c :| c in list && c.version.prerelease != [] && SameTriple(v, c.version) {
      NamedByToken(tokens, |tokens|, c, v);
    }
    if token :| token in tokens && Names(token, v) {
      TokenSays(token, v);
      assert token in [token];
      var c :| c in Desugar(token).list && c.version.prerelease != [] && SameTriple(v, c.version);
      var k :| 0 <= k < |tokens| && tokens[k] == token;
      assert Of(tokens[k], c);
      ListIs(tokens, |tokens|, c);
    }
  }

  lemma AlternativeMeans(tokens: seq<Token>, v: Version)
    ensures Resolve(tokens).Comparators? <==> Understood(tokens)
    ensures Holds(v, tokens) <==> Accepts(tokens, v)
    ensures IsWildcard(v, tokens) <==> tokens == [Any] && v.prerelease == []
  {
    ReadableUpTo(tokens, |tokens|);
    assert (forall k :: 0 <= k < |tokens| ==> Readable(tokens[k])) <==> forall token <- tokens :: Readable(token);
    if Understood(tokens) && tokens != [Any] {
      AllAdmit(tokens, v);
      OneNames(tokens, v);
    }
  }

  /** A whole range, by its tokens: it is not understood exactly when an alternative that cannot be read stands before any `*`
      that accepts the version, and is otherwise satisfied exactly when an alternative accepts it. */
  lemma RangeMeans(v: Version, alternatives: seq<seq<Token>>)
    ensures var outcome := EvaluateFrom(v, alternatives, 0, false);
            && (outcome.NotUnderstood? <==>
                exists k :: 0 <= k < |alternatives| && !Understood(alternatives[k])
                            && forall j :: 0 <= j < k ==> !(alternatives[j] == [Any] && v.prerelease == []))
            && (outcome.Answer? ==> (outcome.satisfied <==> exists k :: 0 <= k < |alternatives| && Accepts(alternatives[k], v)))
  {
    EvaluateMeans(v, alternatives, 0, false);
    forall k | 0 <= k < |alternatives|
      ensures Resolve(alternatives[k]).Comparators? <==> Understood(alternatives[k])
      ensures Holds(v, alternatives[k]) <==> Accepts(alternatives[k], v)
      ensures IsWildcard(v, alternatives[k]) <==> alternatives[k] == [Any] && v.prerelease == []
    {
      AlternativeMeans(alternatives[k], v);
    }
  }
}
