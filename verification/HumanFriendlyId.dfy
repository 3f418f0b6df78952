/**
 Invoice and receipt numbers, `PREFIX-yyyymmdd-xxxxxx`, and the payment link that carries an
 invoice number to the gateway. The UUID, the random bytes and the formatted date are inputs.
 */
module HumanFriendlyId {
  import opened Wrappers
  import opened Errors
  import opened GoText
  import opened Documents

  const SUFFIX_LENGTH: nat := 6

  predicate LowerHex(c: char) {
    '0' <= c <= '9' || 'a' <= c <= 'f'
  }

  /** The text of a UUID: 8-4-4-4-12 lower-case hexadecimal digits (section 4 of RFC 9562). */
  predicate IsUuid(s: string) {
    && |s| == 36
    && forall i :: 0 <= i < 36 ==> if i in {8, 13, 18, 23} then s[i] == '-' else LowerHex(s[i])
  }

  type Uuid = s: string | IsUuid(s)
    witness "00000000-0000-0000-0000-000000000000"

  newtype Byte = b: int | 0 <= b < 256

  type RandomBytes = s: seq<Byte> | |s| == SUFFIX_LENGTH
    witness [0, 0, 0, 0, 0, 0]

  const SOME_UUID: Uuid := "00000000-0000-0000-0000-000000000000"

  const SOME_BYTES: RandomBytes := [0, 0, 0, 0, 0, 0]

  /** A date as `20060102` formats it: digits, with a sign for a year before 0. */
  predicate IsDateText(s: string) {
    forall i :: 0 <= i < |s| ==> '0' <= s[i] <= '9' || s[i] == '-'
  }

  type DateText = s: string | IsDateText(s)

  /** What the two random sources and the date formatter answer to one call. */
  datatype Draw = Draw(uuid: Result<Uuid, Error>, random: Result<RandomBytes, Error>, date: DateText)

  /** `strings.ReplaceAll(s, "-", "")`. */
  function WithoutDashes(s: string): string {
    if s == "" then ""
    else if s[0] == '-' then WithoutDashes(s[1..])
    else [s[0]] + WithoutDashes(s[1..])
  }

  /** The digits a suffix is drawn from. */
  function Digits(uuid: Uuid): (d: string)
    ensures |d| == 32
    ensures forall i :: 0 <= i < 32 ==> LowerHex(d[i])
  {
    var d := WithoutDashes(uuid);
    DashesLeaveThirtyTwoDigits(uuid);
    d
  }

  function Suffix(source: string, random: RandomBytes): (r: string)
    requires |source| > 0
    ensures |r| == SUFFIX_LENGTH
  {
    seq(SUFFIX_LENGTH, i requires 0 <= i < SUFFIX_LENGTH => source[random[i] as int % |source|])
  }

  function Generate(prefix: string, draw: Draw): Result<string, Error> {
    match draw.uuid
    case Failure(e) => Failure(Wrap(AppUnexpected, "unexpected error while generating uuid", e))
    case Success(id) =>
      match draw.random
      case Failure(e) => Failure(Wrap(AppUnexpected, "unexpected error while generating random", e))
      case Success(random) => Success(prefix + "-" + draw.date + "-" + Suffix(Digits(id), random))
  }

  /** The generator as written: a six-byte buffer filled index by index from the random bytes. */
  method GenerateHumanFriendlyId(prefix: string, draw: Draw) returns (r: Result<string, Error>)
    ensures r == Generate(prefix, draw)
  {
    if draw.uuid.Failure? {
      return Failure(Wrap(AppUnexpected, "unexpected error while generating uuid", draw.uuid.error));
    }
    var source := Digits(draw.uuid.value);
    if draw.random.Failure? {
      return Failure(Wrap(AppUnexpected, "unexpected error while generating random", draw.random.error));
    }
    var random := draw.random.value;
    var suffix := new char[SUFFIX_LENGTH];
    for i := 0 to SUFFIX_LENGTH
      invariant forall k :: 0 <= k < i ==> suffix[k] == source[random[k] as int % |source|]
    {
      suffix[i] := source[random[i] as int % |source|];
    }
    assert suffix[..] == Suffix(source, random);
    return Success(prefix + "-" + draw.date + "-" + suffix[..]);
  }

  // ---------- Shape ----------

  lemma {:induction false} WithoutDashesConcat(a: string, b: string)
    ensures WithoutDashes(a + b) == WithoutDashes(a) + WithoutDashes(b)
  {
    if a == "" {
      assert a + b == b;
    } else {
      assert (a + b)[1..] == a[1..] + b;
      WithoutDashesConcat(a[1..], b);
    }
  }

  lemma {:induction false} WithoutDashesId(a: string)
    requires '-' !in a
    ensures WithoutDashes(a) == a
  {
    if a != "" {
      WithoutDashesId(a[1..]);
    }
  }

  lemma {:induction false} WithoutDashesMembers(a: string)
    ensures forall x :: x in WithoutDashes(a) ==> x in a && x != '-'
  {
    if a != "" {
      WithoutDashesMembers(a[1..]);
    }
  }

  /** Taking the dashes out of a UUID leaves its five groups of digits, in order: 32 of them. */
  lemma DashesLeaveThirtyTwoDigits(s: string)
    requires IsUuid(s)
    ensures WithoutDashes(s) == s[..8] + (s[9..13] + (s[14..18] + (s[19..23] + s[24..])))
    ensures |WithoutDashes(s)| == 32
    ensures forall i :: 0 <= i < 32 ==> LowerHex(WithoutDashes(s)[i])
  {
    var a, b, c, d, e := s[..8], s[9..13], s[14..18], s[19..23], s[24..];
    assert s == a + ("-" + (b + ("-" + (c + ("-" + (d + ("-" + e)))))));
    WithoutDashesConcat(a, "-" + (b + ("-" + (c + ("-" + (d + ("-" + e)))))));
    WithoutDashesConcat(b, "-" + (c + ("-" + (d + ("-" + e)))));
    WithoutDashesConcat(c, "-" + (d + ("-" + e)));
    WithoutDashesConcat(d, "-" + e);
    forall t: string
      ensures WithoutDashes("-" + t) == WithoutDashes(t)
    {
      assert ("-" + t)[1..] == t;
    }
    WithoutDashesId(a);
    WithoutDashesId(b);
    WithoutDashesId(c);
    WithoutDashesId(d);
    WithoutDashesId(e);
    assert WithoutDashes(s) == a + (b + (c + (d + e)));
    WithoutDashesMembers(s);
    forall i | 0 <= i < 32
      ensures LowerHex(WithoutDashes(s)[i])
    {
      assert WithoutDashes(s)[i] in WithoutDashes(s);
    }
  }

  /** A number the generator may produce for a prefix. */
  ghost predicate IsIdOf(id: string, prefix: string) {
    exists date: DateText, suffix: string ::
      && id == prefix + "-" + date + "-" + suffix
      && |suffix| == SUFFIX_LENGTH
      && forall i :: 0 <= i < SUFFIX_LENGTH ==> LowerHex(suffix[i])
  }

  lemma GeneratedIdShape(prefix: string, draw: Draw)
    requires Generate(prefix, draw).Success?
    ensures IsIdOf(Generate(prefix, draw).value, prefix)
  {
    var suffix := Suffix(Digits(draw.uuid.value), draw.random.value);
    assert Generate(prefix, draw).value == prefix + "-" + draw.date + "-" + suffix;
  }

  /**
   The number is prefix, the draw's date and six digits, joined by dashes; at each place of the six
   stands the digit of the UUID that this place's random byte selects, modulo their number.
   */
  predicate CarriesDraw(id: string, prefix: string, draw: Draw) {
    && draw.uuid.Success? && draw.random.Success?
    && |id| == |prefix| + |draw.date| + 8
    && id[..|id| - 6] == prefix + "-" + draw.date + "-"
    && var u := draw.uuid.value;
       var digits := u[..8] + (u[9..13] + (u[14..18] + (u[19..23] + u[24..])));
       forall i :: 0 <= i < 6 ==> id[|id| - 6 + i] == digits[draw.random.value[i] as int % 32]
  }

  /** The generator fails only with its sources, and what it gives carries the whole draw and nothing else. */
  lemma GeneratedNumberCarriesDraw(prefix: string, draw: Draw)
    ensures Generate(prefix, draw).Success? <==> draw.uuid.Success? && draw.random.Success?
    ensures forall id :: Generate(prefix, draw) == Success(id) <==> CarriesDraw(id, prefix, draw)
  {
    if draw.uuid.Success? && draw.random.Success? {
      var digits := Digits(draw.uuid.value);
      DashesLeaveThirtyTwoDigits(draw.uuid.value);
      var suffix := Suffix(digits, draw.random.value);
      var id := prefix + "-" + draw.date + "-" + suffix;
      assert id[..|id| - 6] == prefix + "-" + draw.date + "-" && id[|id| - 6..] == suffix;
      forall other | CarriesDraw(other, prefix, draw)
        ensures other == id
      {
        assert other == other[..|other| - 6] + other[|other| - 6..];
        assert other[|other| - 6..] == suffix;
      }
    }
  }

  lemma GeneratedIdNotBlank(prefix: string, draw: Draw)
    requires Generate(prefix, draw).Success?
    requires |prefix| > 0 && 'A' <= prefix[0] <= 'Z'
    ensures !IsBlank(Generate(prefix, draw).value)
  {
    var id := Generate(prefix, draw).value;
    assert id[0] == prefix[0];
    OpensWithTextNotBlank(id);
  }

  // ---------- The payment link ----------

  datatype Route = PayWithCardRoute(invoiceNumber: string) | ReissueRoute | NoRoute

  /** The bytes that end a path or one of its segments (section 3.3 of RFC 3986). */
  predicate Delimiter(c: char) {
    c == '/' || c == '?' || c == '#'
  }

  /** `scheme://authority` without path, query or fragment. */
  ghost predicate IsHostUrl(host: string) {
    exists scheme: string, authority: string {:trigger scheme + "://" + authority} ::
      && host == scheme + "://" + authority
      && (forall i :: 0 <= i < |scheme| ==> scheme[i] != ':' && !Delimiter(scheme[i]))
      && (forall i :: 0 <= i < |authority| ==> !Delimiter(authority[i]))
  }

  /** The part of `s` before the first `c`, or all of it. */
  function Until(s: string, stop: char -> bool): string {
    if s == "" || stop(s[0]) then "" else [s[0]] + Until(s[1..], stop)
  }

  function From(s: string, stop: char -> bool): string {
    if s == "" || stop(s[0]) then s else From(s[1..], stop)
  }

  /** The path of an absolute URL: after the authority, up to a query or fragment. */
  function PathOf(url: string): string {
    var afterScheme := From(url, c => c == ':');
    if |afterScheme| < 3 || afterScheme[..3] != "://" then ""
    else Until(From(afterScheme[3..], c => Delimiter(c)), c => c == '?' || c == '#')
  }

  /** The segments of a path that opens with a slash. */
  function Segments(path: string): seq<string>
    decreases |path|
  {
    if path == "" || path[0] != '/' then []
    else
      var rest := path[1..];
      FromIsSuffix(rest);
      [Until(rest, c => c == '/')] + Segments(From(rest, c => c == '/'))
  }

  lemma {:induction false} FromIsSuffix(s: string)
    ensures |From(s, c => c == '/')| <= |s|
  {
    if s != "" && s[0] != '/' {
      FromIsSuffix(s[1..]);
    }
  }

  /** The gateway's two route patterns. */
  function Match(path: string): Route {
    var s := Segments(path);
    if |s| == 4 && s[..3] == ["v1", "payments", "invoice"] then PayWithCardRoute(s[3])
    else if s == ["v1", "payments", "payment_request", "reissue"] then ReissueRoute
    else NoRoute
  }

  lemma {:induction false} SplitAt(a: string, b: string, stop: char -> bool)
    requires forall i :: 0 <= i < |a| ==> !stop(a[i])
    requires b == "" || stop(b[0])
    ensures Until(a + b, stop) == a && From(a + b, stop) == b
  {
    if a == "" {
      assert a + b == b;
    } else {
      assert (a + b)[0] == a[0] && (a + b)[1..] == a[1..] + b;
      SplitAt(a[1..], b, stop);
    }
  }

  lemma SegmentsCons(segment: string, rest: string)
    requires forall i :: 0 <= i < |segment| ==> segment[i] != '/'
    requires rest == "" || rest[0] == '/'
    ensures Segments("/" + segment + rest) == [segment] + Segments(rest)
  {
    var path := "/" + segment + rest;
    assert path[1..] == segment + rest;
    var slash := (c: char) => c == '/';
    SplitAt(segment, rest, slash);
    UntilExt(path[1..], slash, c => c == '/');
  }

  lemma {:induction false} UntilExt(s: string, f: char -> bool, g: char -> bool)
    requires forall c :: f(c) == g(c)
    ensures Until(s, f) == Until(s, g) && From(s, f) == From(s, g)
  {
    if s != "" {
      UntilExt(s[1..], f, g);
    }
  }

  /** The link built for a generated number leads to the pay route and to that number. */
  lemma PaymentLinkRoundTrip(host: string, id: string)
    requires IsHostUrl(host) && IsIdOf(id, "INV")
    ensures PathOf(PaymentUrl(host, id)) == PAY_PATH + id
    ensures Match(PathOf(PaymentUrl(host, id))) == PayWithCardRoute(id)
  {
    hide PathOf, Match;
    var scheme: string, authority: string :|
      && host == scheme + "://" + authority
      && (forall i :: 0 <= i < |scheme| ==> scheme[i] != ':' && !Delimiter(scheme[i]))
      && (forall i :: 0 <= i < |authority| ==> !Delimiter(authority[i]));
    IdHasNoDelimiter(id);
    PayLinkLeadsBack(scheme, authority, id);
  }

  lemma PayLinkLeadsBack(scheme: string, authority: string, id: string)
    requires forall i :: 0 <= i < |scheme| ==> scheme[i] != ':'
    requires forall i :: 0 <= i < |authority| ==> !Delimiter(authority[i])
    requires forall i :: 0 <= i < |id| ==> !Delimiter(id[i])
    ensures PathOf(PaymentUrl(scheme + "://" + authority, id)) == PAY_PATH + id
    ensures Match(PAY_PATH + id) == PayWithCardRoute(id)
  {
    PayPathText();
    LinkLeadsBack(scheme, authority, PAY_PATH, id);
  }

  lemma LinkLeadsBack(scheme: string, authority: string, prefix: string, id: string)
    requires forall i :: 0 <= i < |scheme| ==> scheme[i] != ':'
    requires forall i :: 0 <= i < |authority| ==> !Delimiter(authority[i])
    requires |prefix| > 0 && prefix[0] == '/' && '?' !in prefix && '#' !in prefix
    requires prefix == "/" + "v1" + ("/" + "payments" + ("/" + "invoice" + "/"))
    requires '/' !in "v1" && '/' !in "payments" && '/' !in "invoice"
    requires forall i :: 0 <= i < |id| ==> !Delimiter(id[i])
    ensures PathOf(scheme + "://" + authority + prefix + id) == prefix + id
    ensures Match(prefix + id) == PayWithCardRoute(id)
  {
    assert scheme + "://" + authority + prefix + id == scheme + "://" + authority + (prefix + id);
    PathOfUrl(scheme, authority, prefix + id);
    FourSegments(prefix, "v1", "payments", "invoice", id);
    var s := Segments(prefix + id);
    assert s[..3] == ["v1", "payments", "invoice"];
  }

  lemma IdHasNoDelimiter(id: string)
    requires IsIdOf(id, "INV")
    ensures forall i :: 0 <= i < |id| ==> !Delimiter(id[i])
  {
    var date: DateText, suffix: string :|
      && id == "INV" + "-" + date + "-" + suffix
      && |suffix| == SUFFIX_LENGTH
      && forall i :: 0 <= i < SUFFIX_LENGTH ==> LowerHex(suffix[i]);
    forall i | 0 <= i < |id|
      ensures !Delimiter(id[i])
    {
      if i >= 4 && i < 4 + |date| {
        assert id[i] == date[i - 4];
      } else if i > 4 + |date| {
        assert id[i] == suffix[i - 5 - |date|];
      }
    }
  }

  lemma PathOfUrl(scheme: string, authority: string, path: string)
    requires forall i :: 0 <= i < |scheme| ==> scheme[i] != ':'
    requires forall i :: 0 <= i < |authority| ==> !Delimiter(authority[i])
    requires |path| > 0 && path[0] == '/' && '?' !in path && '#' !in path
    ensures PathOf(scheme + "://" + authority + path) == path
  {
    var url := scheme + "://" + authority + path;
    assert url == scheme + ("://" + (authority + path));
    var colon := (c: char) => c == ':';
    SplitAt(scheme, "://" + (authority + path), colon);
    UntilExt(url, colon, c => c == ':');
    var afterScheme := From(url, c => c == ':');
    assert afterScheme == "://" + (authority + path);
    assert afterScheme[..3] == "://" && afterScheme[3..] == authority + path;
    var delimiter := (c: char) => Delimiter(c);
    SplitAt(authority, path, delimiter);
    UntilExt(authority + path, delimiter, c => Delimiter(c));
    var end := (c: char) => c == '?' || c == '#';
    assert path + "" == path;
    SplitAt(path, "", end);
    UntilExt(path, end, c => c == '?' || c == '#');
  }

  lemma PayPathText()
    ensures PAY_PATH == "/" + "v1" + ("/" + "payments" + ("/" + "invoice" + "/"))
    ensures '/' !in "v1" && '/' !in "payments" && '/' !in "invoice"
    ensures |PAY_PATH| > 0 && PAY_PATH[0] == '/' && '?' !in PAY_PATH && '#' !in PAY_PATH
  {
  }

  lemma FourSegments(prefix: string, a: string, b: string, c: string, d: string)
    requires '/' !in a && '/' !in b && '/' !in c && '/' !in d
    requires prefix == "/" + a + ("/" + b + ("/" + c + "/"))
    ensures Segments(prefix + d) == [a, b, c, d]
  {
    var p3 := "/" + d;
    var p2 := "/" + c + p3;
    var p1 := "/" + b + p2;
    assert prefix + d == "/" + a + p1;
    assert p3 == "/" + d + "";
    SegmentsCons(d, "");
    SegmentsCons(c, p3);
    SegmentsCons(b, p2);
    SegmentsCons(a, p1);
  }
}
