/**
 Version strings: decimal numbers, SemVer 2.0.0 texts, the patch bump of the registry updater and
 the version lookup of the dataset registry.
 */
module SemVer {
  import opened Wrappers

  // ---- decimal numbers ---------------------------------------------------------------------------

  predicate IsDigit(c: char) {
    '0' <= c <= '9'
  }

  /** Python's isdigit, over ASCII. */
  predicate IsDigits(s: string) {
    s != [] && forall i :: 0 <= i < |s| ==> IsDigit(s[i])
  }

  /** Digits without a leading zero. */
  predicate Canonical(s: string) {
    IsDigits(s) && (|s| > 1 ==> s[0] != '0')
  }

  function DigitChar(d: nat): (c: char)
    requires d < 10
    ensures IsDigit(c) && DigitValue(c) == d
  {
    d as char + '0'
  }

  function DigitValue(c: char): (d: nat)
    requires IsDigit(c)
    ensures d < 10
  {
    c as nat - '0' as nat
  }

  function Parse(s: string): nat
    requires forall i :: 0 <= i < |s| ==> IsDigit(s[i])
  {
    if s == [] then 0 else Parse(s[..|s| - 1]) * 10 + DigitValue(s[|s| - 1])
  }

  function Print(n: nat): string {
    if n < 10 then [DigitChar(n)] else Print(n / 10) + [DigitChar(n % 10)]
  }

  /** Printing is canonical, and parsing undoes it. */
  lemma {:induction false} ParseUndoesPrint(n: nat)
    ensures Canonical(Print(n)) && Parse(Print(n)) == n
    ensures n > 0 ==> Print(n)[0] != '0'
  {
    if n < 10 {
      assert Print(n)[..0] == [];
    } else {
      ParseUndoesPrint(n / 10);
      var s := Print(n);
      assert s[..|s| - 1] == Print(n / 10);
    }
  }

  lemma {:induction false} ParseIsPositive(s: string)
    requires IsDigits(s) && s[0] != '0'
    ensures Parse(s) > 0
  {
    if |s| > 1 {
      ParseIsPositive(s[..|s| - 1]);
    }
  }

  /** Printing undoes parsing exactly on canonical numerals. */
  lemma {:induction false} PrintUndoesParse(s: string)
    requires IsDigits(s)
    ensures Print(Parse(s)) == s <==> Canonical(s)
  {
    ParseUndoesPrint(Parse(s));
    if Canonical(s) {
      if |s| == 1 {
        assert s[..0] == [];
      } else {
        var front := s[..|s| - 1];
        PrintUndoesParse(front);
        ParseIsPositive(front);
        assert s == front + [s[|s| - 1]];
      }
    }
  }

  lemma CanonicalIsInjective(s: string, t: string)
    requires Canonical(s) && Canonical(t) && Parse(s) == Parse(t)
    ensures s == t
  {
    PrintUndoesParse(s);
    PrintUndoesParse(t);
  }

  // ---- SemVer texts --------------------------------------------------------------------------------

  /** The parts of a version text; `pre` and `build` are the dot-separated identifiers. */
  datatype Version = Version(major: string, minor: string, patch: string, pre: seq<string>, build: seq<string>)

  predicate IsIdentifierChar(c: char) {
    IsDigit(c) || 'a' <= c <= 'z' || 'A' <= c <= 'Z' || c == '-'
  }

  predicate IsIdentifier(s: string) {
    s != [] && forall i :: 0 <= i < |s| ==> IsIdentifierChar(s[i])
  }

  /** A numeric pre-release identifier has no leading zero. */
  predicate IsPreIdentifier(s: string) {
    IsIdentifier(s) && (IsDigits(s) ==> Canonical(s))
  }

  /** Section 2, 9 and 10 of SemVer 2.0.0. */
  predicate WellFormed(v: Version) {
    && Canonical(v.major) && Canonical(v.minor) && Canonical(v.patch)
    && (forall i :: 0 <= i < |v.pre| ==> IsPreIdentifier(v.pre[i]))
    && (forall i :: 0 <= i < |v.build| ==> IsIdentifier(v.build[i]))
  }

  function Join(parts: seq<string>): string {
    if parts == [] then "" else if |parts| == 1 then parts[0] else parts[0] + "." + Join(parts[1..])
  }

  function Suffix(v: Version): string {
    (if v.pre == [] then "" else "-" + Join(v.pre)) + (if v.build == [] then "" else "+" + Join(v.build))
  }

  function Text(v: Version): string {
    v.major + "." + v.minor + "." + v.patch + Suffix(v)
  }

  predicate IsCore(v: Version) {
    v.pre == [] && v.build == []
  }

  // ---- the prefix test ----------------------------------------------------------------------------

  lemma FirstDot(a: string, x: string, b: string, y: string)
    requires IsDigits(a) && IsDigits(b)
    requires a + "." + x == b + "." + y
    ensures a == b && x == y
  {
    var s := a + "." + x;
    assert s[|a|] == '.' && s[|b|] == '.';
    assert forall i :: 0 <= i < |a| ==> s[i] == a[i] && IsDigit(s[i]);
    assert forall i :: 0 <= i < |b| ==> s[i] == b[i] && IsDigit(s[i]);
    assert s[..|a|] == a && s[..|b|] == b;
    assert s[|a| + 1..] == x && s[|b| + 1..] == y;
  }

  lemma BandOfPrefix(major: string, minor: string, tail: string, qMajor: string, qMinor: string)
    requires IsDigits(major) && IsDigits(minor) && IsDigits(qMajor) && IsDigits(qMinor)
    requires qMajor + "." + qMinor + "." <= major + "." + minor + "." + tail
    ensures major == qMajor && minor == qMinor
  {
    var prefix, text := qMajor + "." + qMinor + ".", major + "." + minor + "." + tail;
    var more := text[|prefix|..];
    assert text == prefix + more;
    assert text == major + "." + (minor + "." + tail);
    assert prefix + more == qMajor + "." + (qMinor + "." + more);
    FirstDot(major, minor + "." + tail, qMajor, qMinor + "." + more);
    FirstDot(minor, tail, qMinor, more);
  }

  /**
   For every SemVer text and every canonical MAJOR.MINOR query, the text starts with "MAJOR.MINOR."
   if and only if its parsed major and minor equal the query's.
   */
  lemma PrefixSelectsTheBand(v: Version, major: string, minor: string)
    requires WellFormed(v) && Canonical(major) && Canonical(minor)
    ensures major + "." + minor + "." <= Text(v) <==> Parse(v.major) == Parse(major) && Parse(v.minor) == Parse(minor)
  {
    var tail := v.patch + Suffix(v);
    assert Text(v) == v.major + "." + v.minor + "." + tail;
    if major + "." + minor + "." <= Text(v) {
      BandOfPrefix(v.major, v.minor, tail, major, minor);
    }
    if Parse(v.major) == Parse(major) && Parse(v.minor) == Parse(minor) {
      CanonicalIsInjective(v.major, major);
      CanonicalIsInjective(v.minor, minor);
    }
  }

  // ---- bumping the patch ---------------------------------------------------------------------------

  /** Python's split on dots. */
  function Split(s: string): (parts: seq<string>)
    ensures parts != []
  {
    if s == [] then [""]
    else
      var rest := Split(s[1..]);
      if s[0] == '.' then [""] + rest else [[s[0]] + rest[0]] + rest[1..]
  }

  predicate Dotless(s: string) {
    forall i :: 0 <= i < |s| ==> s[i] != '.'
  }

  lemma {:induction false} SplitDotless(s: string)
    requires Dotless(s)
    ensures Split(s) == [s]
  {
    if s != [] {
      SplitDotless(s[1..]);
      assert s == [s[0]] + s[1..];
    }
  }

  lemma {:induction false} SplitAtDot(a: string, b: string)
    requires Dotless(a)
    ensures Split(a + "." + b) == [a] + Split(b)
  {
    var s := a + "." + b;
    if a == [] {
      assert s[1..] == b;
    } else {
      assert s[1..] == a[1..] + "." + b;
      SplitAtDot(a[1..], b);
      assert a == [a[0]] + a[1..];
    }
  }

  predicate Bumpable(s: string) {
    var parts := Split(s);
    |parts| == 3 && IsDigits(parts[0]) && IsDigits(parts[1]) && IsDigits(parts[2])
  }

  function Core(major: nat, minor: nat, patch: nat): Version {
    Version(Print(major), Print(minor), Print(patch), [], [])
  }

  /** None where the source exits: not three dot-separated digit strings. */
  function BumpPatch(s: string): Option<string> {
    if Bumpable(s) then
      var parts := Split(s);
      Some(Print(Parse(parts[0])) + "." + Print(Parse(parts[1])) + "." + Print(Parse(parts[2]) + 1))
    else None
  }

  /** Section 11 of SemVer 2.0.0, on core versions. */
  predicate Precedes(v: Version, w: Version)
    requires WellFormed(v) && WellFormed(w)
  {
    || Parse(v.major) < Parse(w.major)
    || (Parse(v.major) == Parse(w.major) && Parse(v.minor) < Parse(w.minor))
    || (Parse(v.major) == Parse(w.major) && Parse(v.minor) == Parse(w.minor) && Parse(v.patch) < Parse(w.patch))
  }

  lemma CoreIsWellFormed(major: nat, minor: nat, patch: nat)
    ensures WellFormed(Core(major, minor, patch)) && IsCore(Core(major, minor, patch))
    ensures Parse(Print(major)) == major && Parse(Print(minor)) == minor && Parse(Print(patch)) == patch
  {
    ParseUndoesPrint(major);
    ParseUndoesPrint(minor);
    ParseUndoesPrint(patch);
  }

  /** A bump, where there is one, is always a canonical core version: the text's patch successor. */
  lemma BumpIsCanonical(s: string)
    requires Bumpable(s)
    ensures var parts := Split(s); var next := Core(Parse(parts[0]), Parse(parts[1]), Parse(parts[2]) + 1);
      BumpPatch(s) == Some(Text(next)) && WellFormed(next) && IsCore(next)
  {
    var parts := Split(s);
    CoreIsWellFormed(Parse(parts[0]), Parse(parts[1]), Parse(parts[2]) + 1);
    var next := Core(Parse(parts[0]), Parse(parts[1]), Parse(parts[2]) + 1);
    assert Suffix(next) == "";
    assert Text(next) == next.major + "." + next.minor + "." + next.patch;
  }

  lemma SplitOfCore(major: string, minor: string, tail: string)
    requires IsDigits(major) && IsDigits(minor)
    ensures Split(major + "." + minor + "." + tail) == [major, minor] + Split(tail)
  {
    assert major + "." + minor + "." + tail == major + "." + (minor + "." + tail);
    SplitAtDot(major, minor + "." + tail);
    SplitAtDot(minor, tail);
    assert [major] + ([minor] + Split(tail)) == [major, minor] + Split(tail);
  }

  /** The first part of a split that still holds a non-digit keeps it. */
  lemma {:induction false} SplitKeepsSuffix(digits: string, suffix: string)
    requires IsDigits(digits) && suffix != [] && !IsDigit(suffix[0]) && suffix[0] != '.'
    ensures !IsDigits(Split(digits + suffix)[0])
  {
    var s := digits + suffix;
    if |digits| == 1 {
      assert s[1..] == suffix;
      assert Split(suffix)[0][0] == suffix[0];
      assert Split(s)[0][1] == suffix[0];
    } else {
      assert s[1..] == digits[1..] + suffix;
      SplitKeepsSuffix(digits[1..], suffix);
      SplitTail(s);
    }
  }

  lemma SplitTail(s: string)
    requires s != [] && IsDigit(s[0]) && s[1..] != [] && !IsDigits(Split(s[1..])[0]) && s[1] != '.'
    ensures !IsDigits(Split(s)[0])
  {
    var rest := Split(s[1..])[0];
    assert rest != [];
    var i :| 0 <= i < |rest| && !IsDigit(rest[i]);
    assert Split(s)[0][i + 1] == rest[i];
  }

  lemma SplitOfText(v: Version)
    requires WellFormed(v)
    ensures Split(Text(v)) == [v.major, v.minor] + Split(v.patch + Suffix(v))
  {
    var tail := v.patch + Suffix(v);
    assert Text(v) == v.major + "." + v.minor + "." + tail;
    SplitOfCore(v.major, v.minor, tail);
  }

  lemma SplitOfCoreText(v: Version)
    requires WellFormed(v) && IsCore(v)
    ensures Split(Text(v)) == [v.major, v.minor, v.patch]
  {
    SplitOfText(v);
    assert v.patch + Suffix(v) == v.patch;
    SplitDotless(v.patch);
    assert [v.major, v.minor] + [v.patch] == [v.major, v.minor, v.patch];
  }

  lemma NextPrecedes(v: Version)
    requires WellFormed(v)
    ensures var next := Core(Parse(v.major), Parse(v.minor), Parse(v.patch) + 1);
      WellFormed(next) && IsCore(next) && Precedes(v, next)
  {
    CoreIsWellFormed(Parse(v.major), Parse(v.minor), Parse(v.patch) + 1);
  }

  lemma CoreIsBumped(v: Version)
    requires WellFormed(v) && IsCore(v)
    ensures var next := Core(Parse(v.major), Parse(v.minor), Parse(v.patch) + 1);
      BumpPatch(Text(v)) == Some(Text(next)) && WellFormed(next) && IsCore(next) && Precedes(v, next)
  {
    SplitOfCoreText(v);
    BumpIsCanonical(Text(v));
    NextPrecedes(v);
  }

  lemma SuffixedIsNotBumped(v: Version)
    requires WellFormed(v) && !IsCore(v)
    ensures BumpPatch(Text(v)).None?
  {
    SplitOfText(v);
    assert Suffix(v)[0] == '-' || Suffix(v)[0] == '+';
    SplitKeepsSuffix(v.patch, Suffix(v));
    assert Split(Text(v))[2] == Split(v.patch + Suffix(v))[0];
  }

  /**
   Of the SemVer texts, exactly the core versions can be bumped; the bump keeps major and minor,
   increments the patch, is again a core SemVer text, and comes strictly later.
   */
  lemma BumpOfSemVer(v: Version)
    requires WellFormed(v)
    ensures BumpPatch(Text(v)).Some? <==> IsCore(v)
    ensures IsCore(v) ==>
      var next := Core(Parse(v.major), Parse(v.minor), Parse(v.patch) + 1);
      BumpPatch(Text(v)) == Some(Text(next)) && WellFormed(next) && IsCore(next) && Precedes(v, next)
  {
    if IsCore(v) {
      CoreIsBumped(v);
    } else {
      SuffixedIsNotBumped(v);
    }
  }

  // ---- looking a dataset up --------------------------------------------------------------------------

  /** A registry row: the dataset's name, its version, and what it holds. */
  datatype Dataset = Dataset(name: string, version: Version, content: string)

  datatype Miss = UnknownDataset | EmptyBand | UnknownVersion

  /** Later rows of one name and version shadow earlier ones. */
  function ByVersion(datasets: seq<Dataset>, name: string): map<string, Dataset> {
    if datasets == [] then map[] else
      var before := ByVersion(datasets[..|datasets| - 1], name);
      var last := datasets[|datasets| - 1];
      if last.name == name then before[Text(last.version) := last] else before
  }

  function InBand(versions: set<string>, prefix: string): set<string> {
    set v | v in versions && prefix <= v
  }

  /** A MAJOR.MINOR query, as against an exact version. */
  predicate IsPartial(query: string) {
    var parts := Split(query);
    |parts| == 2 && Canonical(parts[0]) && Canonical(parts[1])
  }

  /** `resolve` is Harbor's choice of the highest of several versions. */
  function GetDatasetSpec(datasets: seq<Dataset>, name: string, query: Option<string>, resolve: set<string> -> string)
    : Result<Dataset, Miss>
  {
    var byVersion := ByVersion(datasets, name);
    if byVersion.Keys == {} then Failure(UnknownDataset)
    else if query.Some? && IsPartial(query.value) && InBand(byVersion.Keys, query.value + ".") == {} then Failure(EmptyBand)
    else
      var resolved :=
        if query.None? then resolve(byVersion.Keys)
        else if IsPartial(query.value) then resolve(InBand(byVersion.Keys, query.value + "."))
        else query.value;
      if resolved in byVersion then Success(byVersion[resolved]) else Failure(UnknownVersion)
  }

  predicate Indexed(datasets: seq<Dataset>, name: string, v: string, d: Dataset) {
    d in datasets && d.name == name && Text(d.version) == v
  }

  lemma {:induction false} ByVersionHolds(datasets: seq<Dataset>, name: string)
    ensures forall v :: v in ByVersion(datasets, name) ==> Indexed(datasets, name, v, ByVersion(datasets, name)[v])
    ensures forall d :: d in datasets && d.name == name ==> Text(d.version) in ByVersion(datasets, name)
  {
    if datasets != [] {
      var front, last := datasets[..|datasets| - 1], datasets[|datasets| - 1];
      ByVersionHolds(front, name);
      assert forall d :: d in datasets <==> d in front || d == last;
      forall v | v in ByVersion(datasets, name)
        ensures Indexed(datasets, name, v, ByVersion(datasets, name)[v])
      {
        if last.name == name && Text(last.version) == v {
          assert Indexed(datasets, name, v, last);
        } else {
          assert Indexed(front, name, v, ByVersion(front, name)[v]);
        }
      }
    }
  }

  predicate Belongs(d: Dataset, name: string, major: string, minor: string)
    requires WellFormed(d.version) && Canonical(major) && Canonical(minor)
  {
    d.name == name && Parse(d.version.major) == Parse(major) && Parse(d.version.minor) == Parse(minor)
  }

  lemma BandIsInhabited(datasets: seq<Dataset>, name: string, major: string, minor: string)
    requires forall d :: d in datasets ==> WellFormed(d.version)
    requires Canonical(major) && Canonical(minor)
    ensures var m := ByVersion(datasets, name); var band := InBand(m.Keys, major + "." + minor + ".");
      && (band != {} <==> exists d :: d in datasets && Belongs(d, name, major, minor))
      && (forall v :: v in band ==> m[v] in datasets && Belongs(m[v], name, major, minor))
  {
    var m, prefix := ByVersion(datasets, name), major + "." + minor + ".";
    ByVersionHolds(datasets, name);
    var band := InBand(m.Keys, prefix);
    forall v | v in band
      ensures m[v] in datasets && Belongs(m[v], name, major, minor)
    {
      assert Indexed(datasets, name, v, m[v]);
      PrefixSelectsTheBand(m[v].version, major, minor);
    }
    if d :| d in datasets && Belongs(d, name, major, minor) {
      PrefixSelectsTheBand(d.version, major, minor);
      assert Text(d.version) in band;
    }
    if v :| v in band {
      assert m[v] in datasets && Belongs(m[v], name, major, minor);
    }
  }

  ghost predicate IsKnown(datasets: seq<Dataset>, name: string) {
    exists d :: d in datasets && d.name == name
  }

  lemma KnownIsIndexed(datasets: seq<Dataset>, name: string)
    ensures ByVersion(datasets, name).Keys != {} <==> IsKnown(datasets, name)
  {
    var m := ByVersion(datasets, name);
    ByVersionHolds(datasets, name);
    if m.Keys != {} {
      var v :| v in m;
      assert Indexed(datasets, name, v, m[v]);
    }
  }

  lemma PairIsPartial(major: string, minor: string)
    requires Canonical(major) && Canonical(minor)
    ensures IsPartial(major + "." + minor)
  {
    SplitAtDot(major, minor);
    SplitDotless(minor);
  }

  lemma PartialLookup(datasets: seq<Dataset>, name: string, query: string, resolve: set<string> -> string)
    requires IsPartial(query) && forall s: set<string> :: s != {} ==> resolve(s) in s
    ensures var r, m := GetDatasetSpec(datasets, name, Some(query), resolve), ByVersion(datasets, name);
      var band := InBand(m.Keys, query + ".");
      if band != {} then resolve(band) in band && r == Success(m[resolve(band)])
      else r == Failure(if m.Keys == {} then UnknownDataset else EmptyBand)
  {
    var band := InBand(ByVersion(datasets, name).Keys, query + ".");
    if band != {} {
      assert resolve(band) in band;
    }
  }

  /**
   A MAJOR.MINOR query finds a dataset if and only if some row of that name has that major and
   minor, and what it finds is one of those rows; otherwise it tells an unknown name from an empty
   band.
   */
  lemma BandLookup(datasets: seq<Dataset>, name: string, major: string, minor: string, resolve: set<string> -> string)
    requires forall d :: d in datasets ==> WellFormed(d.version)
    requires Canonical(major) && Canonical(minor)
    requires forall s: set<string> :: s != {} ==> resolve(s) in s
    ensures var r := GetDatasetSpec(datasets, name, Some(major + "." + minor), resolve);
      && (r.Success? <==> exists d :: d in datasets && Belongs(d, name, major, minor))
      && (r.Success? ==> r.value in datasets && Belongs(r.value, name, major, minor))
      && (r.Failure? ==> r.error == if IsKnown(datasets, name) then EmptyBand else UnknownDataset)
  {
    PairIsPartial(major, minor);
    BandIsInhabited(datasets, name, major, minor);
    PartialLookup(datasets, name, major + "." + minor, resolve);
    KnownIsIndexed(datasets, name);
    assert major + "." + minor + "." == (major + "." + minor) + ".";
  }

  /** Row `j` is the last of its name with this version text. */
  predicate IsLastRow(datasets: seq<Dataset>, name: string, v: string, j: nat) {
    && j < |datasets| && datasets[j].name == name && Text(datasets[j].version) == v
    && forall i :: j < i < |datasets| ==> !(datasets[i].name == name && Text(datasets[i].version) == v)
  }

  lemma LastRowStays(front: seq<Dataset>, last: Dataset, name: string, v: string, j: nat)
    requires IsLastRow(front, name, v, j) && !(last.name == name && Text(last.version) == v)
    ensures IsLastRow(front + [last], name, v, j)
  {
  }

  lemma {:induction false} ByVersionIsLast(datasets: seq<Dataset>, name: string, v: string) returns (j: nat)
    requires v in ByVersion(datasets, name)
    ensures IsLastRow(datasets, name, v, j) && ByVersion(datasets, name)[v] == datasets[j]
  {
    var front, last := datasets[..|datasets| - 1], datasets[|datasets| - 1];
    if last.name == name && Text(last.version) == v {
      j := |datasets| - 1;
    } else {
      j := ByVersionIsLast(front, name, v);
      LastRowStays(front, last, name, v, j);
      assert front + [last] == datasets;
    }
  }

  lemma FullIsNotPartial(v: Version)
    requires WellFormed(v)
    ensures !IsPartial(Text(v))
  {
    SplitOfText(v);
  }

  /** A full SemVer text is never read as a partial one: it finds the last row of that name with that very text, if there is one. */
  lemma ExactLookup(datasets: seq<Dataset>, name: string, v: Version, resolve: set<string> -> string)
    requires WellFormed(v)
    ensures var r := GetDatasetSpec(datasets, name, Some(Text(v)), resolve);
      && (r.Success? <==> exists d :: d in datasets && d.name == name && Text(d.version) == Text(v))
      && (r.Success? ==> exists j: nat :: IsLastRow(datasets, name, Text(v), j) && r.value == datasets[j])
      && (r.Failure? ==> r.error == if IsKnown(datasets, name) then UnknownVersion else UnknownDataset)
  {
    FullIsNotPartial(v);
    KnownIsIndexed(datasets, name);
    ByVersionHolds(datasets, name);
    if Text(v) in ByVersion(datasets, name) {
      var j := ByVersionIsLast(datasets, name, Text(v));
      assert datasets[j] in datasets;
    }
  }

  /** Without a version any row of the name will do: the one Harbor resolves among all its version texts. */
  lemma LatestLookup(datasets: seq<Dataset>, name: string, resolve: set<string> -> string)
    requires forall s: set<string> :: s != {} ==> resolve(s) in s
    ensures var r, texts := GetDatasetSpec(datasets, name, None, resolve),
                            (set d | d in datasets && d.name == name :: Text(d.version));
      && (r.Success? <==> IsKnown(datasets, name))
      && (r.Success? ==> exists j: nat :: IsLastRow(datasets, name, resolve(texts), j) && r.value == datasets[j])
      && (r.Failure? ==> r.error == UnknownDataset)
  {
    var m, texts := ByVersion(datasets, name), set d | d in datasets && d.name == name :: Text(d.version);
    KnownIsIndexed(datasets, name);
    ByVersionHolds(datasets, name);
    assert m.Keys == texts;
    if m.Keys != {} {
      assert resolve(texts) in texts;
      var j := ByVersionIsLast(datasets, name, resolve(texts));
    }
  }
}
