/**
  Semantic Versioning 2.0.0 as the blang/semver library reads it: the
  version text of section 2 (MAJOR.MINOR.PATCH) with the pre-release
  part of section 9 and the build metadata of section 10, precedence as
  section 11 defines it, and the comparator ranges versions are checked
  against.
 */
module SemVer {
  import opened Wrappers
  import opened Text

  /** The library keeps every number in an unsigned 64-bit integer. */
  const MaxUint64: nat := 0xFFFF_FFFF_FFFF_FFFF

  /** A pre-release identifier (section 9): numeric or alphanumeric. */
  datatype Identifier = Num(n: nat) | Alnum(s: string)

  datatype Version = Version(major: nat, minor: nat, patch: nat, pre: seq<Identifier>, build: seq<string>)

  predicate IsDigit(c: char) { '0' <= c <= '9' }

  /** The identifier alphabet of section 2: [0-9A-Za-z-]. */
  predicate IsAlnum(c: char) { IsDigit(c) || 'a' <= c <= 'z' || 'A' <= c <= 'Z' || c == '-' }

  predicate AllDigits(s: string) { forall i :: 0 <= i < |s| ==> IsDigit(s[i]) }

  predicate AllAlnum(s: string) { forall i :: 0 <= i < |s| ==> IsAlnum(s[i]) }

  /** Digits with no leading zero, the shape section 2 demands of a number. */
  predicate Canonical(s: string) { s != [] && AllDigits(s) && (|s| > 1 ==> s[0] != '0') }

  // ---------------------------------------------------------------------------
  // Decimal numbers

  function DigitChar(d: nat): (c: char)
    requires d < 10
    ensures IsDigit(c)
  {
    ('0' as int + d) as char
  }

  /** The value of a string of decimal digits. */
  function Value(s: string): nat
    requires AllDigits(s)
  {
    if s == [] then 0 else Value(s[..|s| - 1]) * 10 + (s[|s| - 1] as int - '0' as int)
  }

  /** The decimal text of a number. */
  function Decimal(n: nat): (s: string)
    ensures Canonical(s)
    ensures n < 10 <==> |s| == 1
  {
    if n < 10 then [DigitChar(n)] else Decimal(n / 10) + [DigitChar(n % 10)]
  }

  lemma {:induction false} ValueOfDecimal(n: nat)
    ensures Value(Decimal(n)) == n
  {
    if n >= 10 {
      var s := Decimal(n);
      assert s[..|s| - 1] == Decimal(n / 10);
      ValueOfDecimal(n / 10);
    }
  }

  /** A canonical digit string of two or more digits is worth at least 10. */
  lemma {:induction false} ValueAtLeastTen(s: string)
    requires AllDigits(s) && |s| >= 2 && s[0] != '0'
    ensures Value(s) >= 10
    decreases |s|
  {
    var init := s[..|s| - 1];
    assert init[0] == s[0];
    if |s| > 2 {
      ValueAtLeastTen(init);
    } else {
      assert init == [s[0]];
      assert Value(init) == s[0] as int - '0' as int;
    }
  }

  lemma {:induction false} DecimalOfValue(s: string)
    requires Canonical(s)
    ensures Decimal(Value(s)) == s
    decreases |s|
  {
    if |s| > 1 {
      var init := s[..|s| - 1];
      assert init[0] == s[0];
      if |init| >= 2 {
        ValueAtLeastTen(init);
      }
      DecimalOfValue(init);
      ValueAtLeastTen(s);
      assert Value(s) / 10 == Value(init);
      assert s == init + [s[|s| - 1]];
    }
  }

  /** strconv.ParseUint(s, 10, 64) behind the library's own checks: digits
      only, no leading zero, and a value that fits in 64 bits. */
  function ParseNumber(s: string): (r: Option<nat>)
    ensures r.Some? ==> r.value <= MaxUint64 && Decimal(r.value) == s
  {
    if Canonical(s) && Value(s) <= MaxUint64 then
      DecimalOfValue(s);
      Some(Value(s))
    else
      None
  }

  lemma ParseNumberOfDecimal(n: nat)
    requires n <= MaxUint64
    ensures ParseNumber(Decimal(n)) == Some(n)
  {
    ValueOfDecimal(n);
  }

  // ---------------------------------------------------------------------------
  // Identifiers

  /** The library's NewPRVersion: a non-empty identifier that is numeric
      (no leading zero, 64-bit) or otherwise alphanumeric. */
  function ParseIdentifier(s: string): (r: Option<Identifier>)
    ensures r.Some? ==> ShowIdentifier(r.value) == s && ValidIdentifier(r.value)
  {
    if s == [] then None
    else if AllDigits(s) then
      match ParseNumber(s)
      case Some(n) => Some(Num(n))
      case None => None
    else if AllAlnum(s) then Some(Alnum(s))
    else None
  }

  function ShowIdentifier(id: Identifier): string {
    match id
    case Num(n) => Decimal(n)
    case Alnum(s) => s
  }

  /** An identifier the text form can carry: an alphanumeric one must not
      read as a number. */
  predicate ValidIdentifier(id: Identifier) {
    match id
    case Num(n) => n <= MaxUint64
    case Alnum(s) => s != [] && AllAlnum(s) && !AllDigits(s)
  }

  lemma ParseShowIdentifier(id: Identifier)
    requires ValidIdentifier(id)
    ensures ParseIdentifier(ShowIdentifier(id)) == Some(id)
  {
    match id
    case Num(n) => ParseNumberOfDecimal(n);
    case Alnum(s) =>
  }

  function ParseIdentifiers(parts: seq<string>): (r: Option<seq<Identifier>>)
    ensures r.Some? ==> |r.value| == |parts|
    ensures r.Some? ==> forall i :: 0 <= i < |parts| ==> ParseIdentifier(parts[i]) == Some(r.value[i])
  {
    if parts == [] then Some([])
    else
      match ParseIdentifier(parts[0])
      case None => None
      case Some(id) =>
        match ParseIdentifiers(parts[1..])
        case None => None
        case Some(ids) => Some([id] + ids)
  }

  function ShowIdentifiers(ids: seq<Identifier>): (r: seq<string>)
    ensures |r| == |ids| && forall i :: 0 <= i < |ids| ==> r[i] == ShowIdentifier(ids[i])
  {
    if ids == [] then [] else [ShowIdentifier(ids[0])] + ShowIdentifiers(ids[1..])
  }

  /** Build metadata identifiers (section 10): non-empty and alphanumeric. */
  predicate ValidBuild(parts: seq<string>) {
    forall i :: 0 <= i < |parts| ==> parts[i] != [] && AllAlnum(parts[i])
  }

  predicate WellFormed(v: Version) {
    && v.major <= MaxUint64 && v.minor <= MaxUint64 && v.patch <= MaxUint64
    && (forall i :: 0 <= i < |v.pre| ==> ValidIdentifier(v.pre[i]))
    && ValidBuild(v.build)
  }

  // ---------------------------------------------------------------------------
  // The version text

  /** The first position of `c` in `s`. */
  function Find(s: string, c: char): (r: Option<nat>)
    ensures r.Some? ==> r.value < |s| && s[r.value] == c && c !in s[..r.value]
    ensures r.None? ==> c !in s
  {
    if s == [] then None
    else if s[0] == c then Some(0)
    else
      match Find(s[1..], c)
      case None => None
      case Some(k) =>
        assert s[..k + 1] == [s[0]] + s[1..][..k];
        Some(k + 1)
  }

  lemma {:induction false} FindAfter(a: string, c: char, b: string)
    requires c !in a
    ensures Find(a + [c] + b, c) == Some(|a|)
    decreases |a|
  {
    if a != [] {
      assert a[0] != c;
      assert (a + [c] + b)[1..] == a[1..] + [c] + b;
      FindAfter(a[1..], c, b);
    }
  }

  /** The text before the first `c` and, when there is one, the text after it. */
  function Cut(s: string, c: char): (string, Option<string>) {
    match Find(s, c)
    case None => (s, None)
    case Some(k) => (s[..k], Some(s[k + 1..]))
  }

  /** The inverse of Cut: the text, then `c` and the field when there is one. */
  function Glue(text: string, c: char, field: Option<string>): string {
    if field.None? then text else text + [c] + field.value
  }

  lemma CutGlue(text: string, c: char, field: Option<string>)
    requires c !in text
    ensures Cut(Glue(text, c, field), c) == (text, field)
  {
    if field.Some? {
      var s := Glue(text, c, field);
      FindAfter(text, c, field.value);
      assert s[..|text|] == text && s[|text| + 1..] == field.value;
    }
  }

  lemma GlueCut(s: string, c: char)
    ensures Glue(Cut(s, c).0, c, Cut(s, c).1) == s
  {
    match Find(s, c)
    case None =>
    case Some(k) => assert s == s[..k] + [c] + s[k + 1..];
  }

  /** The pre-release field (after the first `-`) read as identifiers. */
  function ParsePre(field: Option<string>): Option<seq<Identifier>> {
    if field.None? then Some([]) else ParseIdentifiers(Split(field.value, '.'))
  }

  /** The build field (after the first `+`) split into its identifiers. */
  function BuildParts(field: Option<string>): seq<string> {
    if field.None? then [] else Split(field.value, '.')
  }

  /** The library's Parse: `MAJOR.MINOR.PATCH` up to the first two dots,
      then an optional `-` and dot-separated pre-release identifiers, then
      an optional `+` and dot-separated build identifiers. */
  function Parse(s: string): (r: Option<Version>)
  {
    match Find(s, '.')
    case None => None
    case Some(i) =>
      var afterMajor := s[i + 1..];
      match Find(afterMajor, '.')
      case None => None
      case Some(j) => ParseFields(s[..i], afterMajor[..j], afterMajor[j + 1..])
  }

  /** Everything after the second dot: the build part starts at the first
      `+` and the pre-release part at the first `-` before it. */
  function ParseFields(majorText: string, minorText: string, rest: string): Option<Version> {
    var (beforeBuild, buildField) := Cut(rest, '+');
    var (patchText, preField) := Cut(beforeBuild, '-');
    var major, minor, patch := ParseNumber(majorText), ParseNumber(minorText), ParseNumber(patchText);
    var pre, build := ParsePre(preField), BuildParts(buildField);
    if major.Some? && minor.Some? && patch.Some? && pre.Some? && ValidBuild(build) then
      Some(Version(major.value, minor.value, patch.value, pre.value, build))
    else
      None
  }

  function PreField(pre: seq<Identifier>): Option<string> {
    if pre == [] then None else Some(Join(ShowIdentifiers(pre), '.'))
  }

  function BuildField(build: seq<string>): Option<string> {
    if build == [] then None else Some(Join(build, '.'))
  }

  /** Version.String(): the text form of a version. */
  function Format(v: Version): string {
    Dotted(Decimal(v.major), Decimal(v.minor), Glue(Glue(Decimal(v.patch), '-', PreField(v.pre)), '+', BuildField(v.build)))
  }

  lemma {:induction false} JoinFree(parts: seq<string>, sep: char, c: char)
    requires |parts| >= 1 && c != sep
    requires forall i :: 0 <= i < |parts| ==> c !in parts[i]
    ensures c !in Join(parts, sep)
    decreases |parts|
  {
    if |parts| > 1 {
      JoinFree(parts[1..], sep, c);
    }
  }

  lemma AlnumFree(s: string)
    requires AllAlnum(s)
    ensures '.' !in s && '+' !in s
  {
    assert forall k :: 0 <= k < |s| ==> s[k] != '.' && s[k] != '+';
  }

  lemma DigitsFree(s: string)
    requires AllDigits(s)
    ensures '.' !in s && '+' !in s && '-' !in s
  {
    assert forall k :: 0 <= k < |s| ==> s[k] != '.' && s[k] != '+' && s[k] != '-';
  }

  lemma IdentifierFree(id: Identifier)
    requires ValidIdentifier(id)
    ensures '.' !in ShowIdentifier(id) && '+' !in ShowIdentifier(id)
  {
    match id
    case Num(n) => DigitsFree(Decimal(n));
    case Alnum(s) => AlnumFree(s);
  }

  lemma {:induction false} ParseShowIdentifiers(ids: seq<Identifier>)
    requires forall i :: 0 <= i < |ids| ==> ValidIdentifier(ids[i])
    ensures ParseIdentifiers(ShowIdentifiers(ids)) == Some(ids)
    decreases |ids|
  {
    if ids != [] {
      var shown := ShowIdentifiers(ids);
      assert shown == [ShowIdentifier(ids[0])] + ShowIdentifiers(ids[1..]);
      assert shown[0] == ShowIdentifier(ids[0]) && shown[1..] == ShowIdentifiers(ids[1..]);
      ParseShowIdentifier(ids[0]);
      ParseShowIdentifiers(ids[1..]);
      assert ParseIdentifiers(shown) == Some([ids[0]] + ids[1..]);
      assert [ids[0]] + ids[1..] == ids;
    }
  }

  /** Two dot-free numbers and a rest are cut where Parse cuts them. */
  lemma TwoDots(ma: string, mi: string, rest: string)
    requires '.' !in ma && '.' !in mi
    ensures Parse(Dotted(ma, mi, rest)) == ParseFields(ma, mi, rest)
  {
    var s := Dotted(ma, mi, rest);
    var afterMajor := mi + "." + rest;
    assert s == ma + ['.'] + afterMajor;
    FindAfter(ma, '.', afterMajor);
    assert s[..|ma|] == ma && s[|ma| + 1..] == afterMajor;
    assert afterMajor == mi + ['.'] + rest;
    FindAfter(mi, '.', rest);
    assert afterMajor[..|mi|] == mi && afterMajor[|mi| + 1..] == rest;
  }

  /** The pre-release field prints no `+` and reads back as its identifiers. */
  lemma PreFieldRoundTrip(pre: seq<Identifier>)
    requires forall i :: 0 <= i < |pre| ==> ValidIdentifier(pre[i])
    ensures PreField(pre).Some? ==> '+' !in PreField(pre).value
    ensures ParsePre(PreField(pre)) == Some(pre)
  {
    if pre != [] {
      var shown := ShowIdentifiers(pre);
      forall i | 0 <= i < |shown| ensures '+' !in shown[i] && '.' !in shown[i] {
        IdentifierFree(pre[i]);
      }
      JoinFree(shown, '.', '+');
      SplitJoin(shown, '.');
      ParseShowIdentifiers(pre);
    }
  }

  lemma BuildFieldRoundTrip(build: seq<string>)
    requires ValidBuild(build)
    ensures BuildParts(BuildField(build)) == build
  {
    if build != [] {
      forall i | 0 <= i < |build| ensures '.' !in build[i] {
        AlnumFree(build[i]);
      }
      SplitJoin(build, '.');
    }
  }

  /** Formatting a well-formed version and parsing the text gives it back. */
  lemma ParseFormat(v: Version)
    requires WellFormed(v)
    ensures Parse(Format(v)) == Some(v)
  {
    var ma, mi, pa := Decimal(v.major), Decimal(v.minor), Decimal(v.patch);
    DigitsFree(ma);
    DigitsFree(mi);
    DigitsFree(pa);
    var beforeBuild := Glue(pa, '-', PreField(v.pre));
    TwoDots(ma, mi, Glue(beforeBuild, '+', BuildField(v.build)));
    PreFieldRoundTrip(v.pre);
    BuildFieldRoundTrip(v.build);
    assert '+' !in beforeBuild;
    CutGlue(beforeBuild, '+', BuildField(v.build));
    CutGlue(pa, '-', PreField(v.pre));
    ParseNumberOfDecimal(v.major);
    ParseNumberOfDecimal(v.minor);
    ParseNumberOfDecimal(v.patch);
  }

  /** A pre-release field Parse accepts is the one its identifiers print. */
  lemma PreFieldOfParse(field: Option<string>)
    requires ParsePre(field).Some?
    ensures PreField(ParsePre(field).value) == field
    ensures forall i :: 0 <= i < |ParsePre(field).value| ==> ValidIdentifier(ParsePre(field).value[i])
  {
    if field.Some? {
      var parts := Split(field.value, '.');
      var ids := ParsePre(field).value;
      JoinSplit(field.value, '.');
      assert ShowIdentifiers(ids) == parts;
    }
  }

  lemma BuildFieldOfParse(field: Option<string>)
    ensures BuildField(BuildParts(field)) == field
  {
    if field.Some? {
      JoinSplit(field.value, '.');
    }
  }

  /** The three fields of a version text with the two dots between them. */
  function Dotted(majorText: string, minorText: string, rest: string): string {
    majorText + "." + minorText + "." + rest
  }

  /** A text is its fields around its first two dots. */
  lemma DottedAround(s: string, i: nat, j: nat)
    requires i < |s| && s[i] == '.' && j < |s| - i - 1 && s[i + 1..][j] == '.'
    ensures s == Dotted(s[..i], s[i + 1..][..j], s[i + 1..][j + 1..])
  {
    var afterMajor := s[i + 1..];
    assert afterMajor == afterMajor[..j] + "." + afterMajor[j + 1..];
    assert s == s[..i] + "." + afterMajor;
  }

  /** What ParseFields accepts prints back as the same three fields. */
  lemma FormatOfFields(majorText: string, minorText: string, rest: string)
    requires ParseFields(majorText, minorText, rest).Some?
    ensures var v := ParseFields(majorText, minorText, rest).value;
      Format(v) == Dotted(majorText, minorText, rest) && WellFormed(v)
  {
    var v := ParseFields(majorText, minorText, rest).value;
    var (beforeBuild, buildField) := Cut(rest, '+');
    var (patchText, preField) := Cut(beforeBuild, '-');
    assert Decimal(v.major) == majorText && Decimal(v.minor) == minorText && Decimal(v.patch) == patchText;
    GlueCut(rest, '+');
    GlueCut(beforeBuild, '-');
    PreFieldOfParse(preField);
    BuildFieldOfParse(buildField);
    assert Glue(Glue(Decimal(v.patch), '-', PreField(v.pre)), '+', BuildField(v.build)) == rest;
  }

  /** Every text Parse accepts is the canonical form of what it returns. */
  lemma FormatParse(s: string)
    requires Parse(s).Some?
    ensures Format(Parse(s).value) == s && WellFormed(Parse(s).value)
  {
    var i, j := ParseDots(s);
    var afterMajor := s[i + 1..];
    FormatOfFields(s[..i], afterMajor[..j], afterMajor[j + 1..]);
    DottedAround(s, i, j);
  }

  /** A version that parses has its two dots, and its fields around them. */
  lemma ParseDots(s: string) returns (i: nat, j: nat)
    requires Parse(s).Some?
    ensures i < |s| && s[i] == '.' && j < |s| - i - 1 && s[i + 1..][j] == '.'
    ensures Parse(s) == ParseFields(s[..i], s[i + 1..][..j], s[i + 1..][j + 1..])
  {
    i := Find(s, '.').value;
    j := Find(s[i + 1..], '.').value;
  }

  // ---------------------------------------------------------------------------
  // Precedence (section 11)

  function CompareNat(a: nat, b: nat): int {
    if a < b then -1 else if a > b then 1 else 0
  }

  /** Go's byte-wise string order, on the ASCII identifier alphabet. */
  function CompareText(a: string, b: string): (c: int)
    ensures c == 0 <==> a == b
    ensures -1 <= c <= 1
  {
    if a == [] && b == [] then 0
    else if a == [] then -1
    else if b == [] then 1
    else if a[0] < b[0] then -1
    else if a[0] > b[0] then 1
    else
      var c := CompareText(a[1..], b[1..]);
      assert c == 0 ==> a == [a[0]] + a[1..] && b == [b[0]] + b[1..];
      c
  }

  /** Section 11.4.1-3: numeric identifiers compare numerically, alphanumeric
      ones lexically, and numeric ones have lower precedence. */
  function CompareIdentifier(a: Identifier, b: Identifier): int {
    match (a, b)
    case (Num(x), Num(y)) => CompareNat(x, y)
    case (Num(_), Alnum(_)) => -1
    case (Alnum(_), Num(_)) => 1
    case (Alnum(x), Alnum(y)) => CompareText(x, y)
  }

  /** Section 11.4: identifiers compared left to right; a longer list whose
      shorter list is a prefix has higher precedence. */
  function ComparePre(a: seq<Identifier>, b: seq<Identifier>): int {
    if a == [] && b == [] then 0
    else if a == [] then -1
    else if b == [] then 1
    else
      var c := CompareIdentifier(a[0], b[0]);
      if c != 0 then c else ComparePre(a[1..], b[1..])
  }

  /** Version.Compare: -1, 0 or 1 as `v` has lower, equal or higher
      precedence than `w`. Build metadata takes no part (section 10), and
      a version with a pre-release has lower precedence than the same
      version without one (section 11.3). */
  function Compare(v: Version, w: Version): int {
    if v.major != w.major then CompareNat(v.major, w.major)
    else if v.minor != w.minor then CompareNat(v.minor, w.minor)
    else if v.patch != w.patch then CompareNat(v.patch, w.patch)
    else if v.pre == [] && w.pre == [] then 0
    else if v.pre == [] then 1
    else if w.pre == [] then -1
    else ComparePre(v.pre, w.pre)
  }

  lemma {:induction false} CompareTextAntisymmetric(a: string, b: string)
    ensures CompareText(a, b) == -CompareText(b, a)
    decreases |a|
  {
    if a != [] && b != [] && a[0] == b[0] {
      CompareTextAntisymmetric(a[1..], b[1..]);
    }
  }

  lemma {:induction false} ComparePreAntisymmetric(a: seq<Identifier>, b: seq<Identifier>)
    ensures ComparePre(a, b) == -ComparePre(b, a)
    decreases |a|
  {
    if a != [] && b != [] {
      ComparePreAntisymmetric(a[1..], b[1..]);
      match (a[0], b[0])
      case (Alnum(x), Alnum(y)) => CompareTextAntisymmetric(x, y);
      case _ =>
    }
  }

  /** Swapping the operands negates the comparison. */
  lemma CompareAntisymmetric(v: Version, w: Version)
    ensures Compare(v, w) == -Compare(w, v)
  {
    ComparePreAntisymmetric(v.pre, w.pre);
  }

  lemma {:induction false} ComparePreZero(a: seq<Identifier>, b: seq<Identifier>)
    ensures ComparePre(a, b) == 0 <==> a == b
    decreases |a|
  {
    if a != [] && b != [] {
      ComparePreZero(a[1..], b[1..]);
      assert a == [a[0]] + a[1..] && b == [b[0]] + b[1..];
      if a[0] != b[0] {
        match (a[0], b[0])
        case (Num(x), Num(y)) =>
        case (Alnum(x), Alnum(y)) =>
        case _ =>
      }
    }
  }

  /** Equal precedence means equal versions up to build metadata. */
  lemma CompareZero(v: Version, w: Version)
    ensures Compare(v, w) == 0 <==> v.(build := []) == w.(build := [])
  {
    ComparePreZero(v.pre, w.pre);
  }

  lemma {:induction false} CompareTextTransitive(a: string, b: string, c: string)
    requires CompareText(a, b) < 0 && CompareText(b, c) < 0
    ensures CompareText(a, c) < 0
    decreases |a|
  {
    if a != [] && b != [] && c != [] && a[0] == b[0] && b[0] == c[0] {
      CompareTextTransitive(a[1..], b[1..], c[1..]);
    }
  }

  lemma CompareIdentifierTransitive(a: Identifier, b: Identifier, c: Identifier)
    requires CompareIdentifier(a, b) < 0 && CompareIdentifier(b, c) < 0
    ensures CompareIdentifier(a, c) < 0
  {
    match (a, b, c)
    case (Alnum(x), Alnum(y), Alnum(z)) => CompareTextTransitive(x, y, z);
    case _ =>
  }

  lemma {:induction false} ComparePreTransitive(a: seq<Identifier>, b: seq<Identifier>, c: seq<Identifier>)
    requires ComparePre(a, b) < 0 && ComparePre(b, c) < 0
    ensures ComparePre(a, c) < 0
    decreases |a|
  {
    if a != [] && b != [] && c != [] {
      var ab, bc := CompareIdentifier(a[0], b[0]), CompareIdentifier(b[0], c[0]);
      ComparePreZero([a[0]], [b[0]]);
      ComparePreZero([b[0]], [c[0]]);
      assert ComparePre([a[0]], [b[0]]) == ab;
      assert ComparePre([b[0]], [c[0]]) == bc;
      if ab < 0 && bc < 0 {
        CompareIdentifierTransitive(a[0], b[0], c[0]);
      } else if ab == 0 && bc == 0 {
        ComparePreTransitive(a[1..], b[1..], c[1..]);
      }
    }
  }

  /** Precedence is a strict order: it is transitive. */
  lemma CompareTransitive(u: Version, v: Version, w: Version)
    requires Compare(u, v) < 0 && Compare(v, w) < 0
    ensures Compare(u, w) < 0
  {
    if u.major == v.major == w.major && u.minor == v.minor == w.minor && u.patch == v.patch == w.patch
      && u.pre != [] && v.pre != [] && w.pre != []
    {
      ComparePreTransitive(u.pre, v.pre, w.pre);
    }
  }

  // ---------------------------------------------------------------------------
  // Ranges

  datatype Op = Eq | Ne | Gt | Ge | Lt | Le

  datatype Comparator = Comparator(op: Op, version: Version)

  /** A parsed range: alternatives joined by `||`, each a list of
      comparators that must all hold. */
  datatype Range = Range(alternatives: seq<seq<Comparator>>)

  predicate Holds(c: Comparator, v: Version) {
    var k := Compare(v, c.version);
    match c.op
    case Eq => k == 0
    case Ne => k != 0
    case Gt => k > 0
    case Ge => k >= 0
    case Lt => k < 0
    case Le => k <= 0
  }

  predicate AllHold(cs: seq<Comparator>, v: Version) {
    forall j :: 0 <= j < |cs| ==> Holds(cs[j], v)
  }

  /** The library's Range(v): some alternative whose comparators all hold. */
  predicate Satisfies(r: Range, v: Version) {
    exists i :: 0 <= i < |r.alternatives| && AllHold(r.alternatives[i], v)
  }

  lemma CompareIgnoresBuild(v: Version, w: Version, b: seq<string>)
    ensures Compare(v.(build := b), w) == Compare(v, w)
  {
  }

  /** Build metadata never decides whether a version satisfies a range. */
  lemma SatisfiesIgnoresBuild(r: Range, v: Version, b: seq<string>)
    ensures Satisfies(r, v.(build := b)) <==> Satisfies(r, v)
  {
    var v' := v.(build := b);
    forall c: Comparator ensures Holds(c, v') <==> Holds(c, v) {
      CompareIgnoresBuild(v, c.version, b);
    }
    if Satisfies(r, v) {
      var i :| 0 <= i < |r.alternatives| && AllHold(r.alternatives[i], v);
      assert AllHold(r.alternatives[i], v');
    }
    if Satisfies(r, v') {
      var i :| 0 <= i < |r.alternatives| && AllHold(r.alternatives[i], v');
      assert AllHold(r.alternatives[i], v);
    }
  }
}
