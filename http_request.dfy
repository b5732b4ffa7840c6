/** The request builder of sensor/http_client.h: `http_client_create_request`
    copies method, path and body and renders the HTTP/1.1 frame
      "<method> <path> HTTP/1.1\r\nContent-Length: <length of body>\r\n\r\n<body>".
    Beside it stands an independent reader of that wire format, `ParseFrame`,
    which finds the request line, reads the Content-Length header and takes
    exactly that many bytes as the body; the builder and the reader are proved
    to be inverses. */
module HttpRequest {

  datatype Option<T> = None | Some(value: T)

  /** A C string: its contents up to, not including, the terminating NUL. */
  type CStr = s: string | '\0' !in s

  /** `struct HTTP_Request`. */
  datatype Request = Request(httpMethod: CStr, path: CStr, body: CStr, completeRequest: CStr)

  /** The builder either returns a request or, when one of its `malloc` calls
      fails, NULL; `leaked` counts the buffers it allocated before that and
      never frees. */
  datatype Built = Built(request: Request) | OutOfMemory(leaked: nat)

  /** What a reader of the wire format takes out of a frame. */
  datatype Message = Message(httpMethod: string, path: string, body: string)

  // ---------------------------------------------------------------------------
  // Decimal rendering of the body length (the `%d` conversion) and its reader

  predicate IsDigit(c: char) { '0' <= c <= '9' }

  predicate AllDigits(s: string) { forall i :: 0 <= i < |s| ==> IsDigit(s[i]) }

  /** How `%d` renders a non-negative number: at least one digit, and no
      leading zero unless the number is zero. */
  predicate Canonical(s: string) { |s| >= 1 && AllDigits(s) && (s[0] == '0' ==> |s| == 1) }

  function DigitChar(d: nat): (c: char)
    requires d < 10
    ensures IsDigit(c)
  {
    ('0' as int + d) as char
  }

  function DigitValue(c: char): (d: nat)
    requires IsDigit(c)
    ensures d < 10 && DigitChar(d) == c
  {
    c as int - '0' as int
  }

  /** `%d` applied to a non-negative number. */
  function Decimal(n: nat): (s: string)
    ensures Canonical(s)
    ensures s[0] == '0' <==> n == 0
  {
    if n < 10 then [DigitChar(n)] else Decimal(n / 10) + [DigitChar(n % 10)]
  }

  /** The value a decimal digit string denotes. */
  function ParseDecimal(s: string): nat
    requires AllDigits(s)
    decreases |s|
  {
    if s == [] then 0 else 10 * ParseDecimal(s[..|s| - 1]) + DigitValue(s[|s| - 1])
  }

  /** The rendered length reads back as the length. */
  lemma {:induction false} DecimalRoundTrip(n: nat)
    ensures ParseDecimal(Decimal(n)) == n
  {
    var s := Decimal(n);
    if n < 10 {
      assert s[..|s| - 1] == [];
    } else {
      assert s[..|s| - 1] == Decimal(n / 10);
      DecimalRoundTrip(n / 10);
    }
  }

  lemma {:induction false} LeadingDigitPositive(s: string)
    requires |s| >= 1 && AllDigits(s) && s[0] != '0'
    ensures ParseDecimal(s) >= 1
    decreases |s|
  {
    if |s| > 1 {
      var p := s[..|s| - 1];
      assert p[0] == s[0];
      LeadingDigitPositive(p);
    } else {
      assert s[..0] == [];
    }
  }

  /** Every canonical digit string is the rendering of the number it denotes,
      so `Decimal` and `ParseDecimal` are inverse bijections between the
      naturals and the canonical strings. */
  lemma {:induction false} CanonicalRoundTrip(s: string)
    requires Canonical(s)
    ensures Decimal(ParseDecimal(s)) == s
    decreases |s|
  {
    var last := s[|s| - 1];
    var p := s[..|s| - 1];
    if |s| == 1 {
      assert p == [];
    } else {
      assert p[0] == s[0];
      assert Canonical(p);
      LeadingDigitPositive(p);
      CanonicalRoundTrip(p);
      var n := ParseDecimal(s);
      assert n == 10 * ParseDecimal(p) + DigitValue(last);
      assert n / 10 == ParseDecimal(p) && n % 10 == DigitValue(last);
      assert s == p + [last];
    }
  }


  // ---------------------------------------------------------------------------
  // The builder

  // The fixed text of the format at sensor/http_client.h:190,
  // "%s %s HTTP/1.1\r\nContent-Length: %d\r\n\r\n%s".
  const Version: string := " HTTP/1.1\r\n"
  const LengthName: string := "Content-Length: "
  const BlankLine: string := "\r\n\r\n"

  /** The text `sprintf` writes at sensor/http_client.h:190, put together
      from the back: the length and the body, the header, the path and the
      version ending the request line, and in front the method and a space. */
  function Frame(httpMethod: string, path: string, body: string): string
  {
    httpMethod + (" " + FromPath(path, body))
  }

  function FromPath(path: string, body: string): string
  {
    path + (Version + HeaderBlock(body))
  }

  function HeaderBlock(body: string): string
  {
    LengthName + LengthAndBody(body)
  }

  function LengthAndBody(body: string): string
  {
    Decimal(|body|) + (BlankLine + body)
  }

  lemma Assoc7(a: string, b: string, c: string, d: string, e: string, f: string, g: string)
    ensures a + (b + (c + (d + (e + (f + g))))) == a + b + c + d + e + f + g
  {
  }

  lemma VersionThenLengthName()
    ensures Version + LengthName == " HTTP/1.1\r\nContent-Length: "
  {
  }

  /** The pieces put together are the format string of the source with its
      three conversions filled in. */
  lemma FrameFormat(httpMethod: string, path: string, body: string)
    ensures Frame(httpMethod, path, body)
         == httpMethod + " " + path + " HTTP/1.1\r\nContent-Length: " + Decimal(|body|)
            + "\r\n\r\n" + body
  {
    var rest := Decimal(|body|) + (BlankLine + body);
    Assoc(Version, LengthName, rest);
    VersionThenLengthName();
    Assoc7(httpMethod, " ", path, " HTTP/1.1\r\nContent-Length: ", Decimal(|body|), BlankLine, body);
  }

  lemma FrameIsCString(httpMethod: CStr, path: CStr, body: CStr)
    ensures '\0' !in Frame(httpMethod, path, body)
  {
  }

  /** A request whose frame is the rendering of its own method, path and body. */
  ghost predicate WellFormed(r: Request)
  {
    r.completeRequest == Frame(r.httpMethod, r.path, r.body)
  }

  /** `http_client_create_request`.  Its five `malloc` calls (the record, the
      three copies, the frame) run in that order; `okAllocs` is how many of
      them succeed before the first failure. */
  function CreateRequest(httpMethod: CStr, path: CStr, body: CStr, okAllocs: nat): (r: Built)
    ensures r.Built? <==> okAllocs >= 5
    ensures r.OutOfMemory? ==> r.leaked == okAllocs
    ensures r.Built? ==> r.request.httpMethod == httpMethod && r.request.path == path
                         && r.request.body == body && WellFormed(r.request)
  {
    if okAllocs < 5 then
      OutOfMemory(okAllocs)
    else
      FrameIsCString(httpMethod, path, body);
      Built(Request(httpMethod, path, body, Frame(httpMethod, path, body)))
  }

  /** The frame starts with the request line, ends with the blank line and the
      body, its Content-Length digits denote the body's length, and its length
      is that of the three inputs, of the digits, and of 32 fixed bytes. */
  lemma FrameLayout(httpMethod: string, path: string, body: string)
    ensures var f := Frame(httpMethod, path, body);
            var a := |httpMethod| + |path| + 12;
            |f| == |httpMethod| + |path| + |Decimal(|body|)| + |body| + 32
            && f[..a] == httpMethod + " " + path + Version
            && f[a..a + 16] == LengthName
            && f[a + 16..|f| - |body| - 4] == Decimal(|body|)
            && f[|f| - |body| - 4..] == BlankLine + body
            && ParseDecimal(f[a + 16..|f| - |body| - 4]) == |body|
  {
    var f := Frame(httpMethod, path, body);
    var d := Decimal(|body|);
    var line := httpMethod + " " + path + Version;
    assert f == line + HeaderBlock(body) by {
      Assoc(httpMethod + " ", path, Version + HeaderBlock(body));
      Assoc(httpMethod + " " + path, Version, HeaderBlock(body));
    }
    var a := |line|;
    Slices3(line, LengthName, LengthAndBody(body));
    Slices3(line + LengthName, d, BlankLine + body);
    assert f == (line + LengthName) + (d + (BlankLine + body));
    DecimalRoundTrip(|body|);
  }

  lemma Assoc(a: string, b: string, c: string)
    ensures (a + b) + c == a + (b + c)
  {
  }

  // The request the sensor sends when it trips, worked out from the format.
  // The literal text is put together in three steps, each its own lemma.

  lemma SensorLineHead()
    ensures "POST" + " " + "/api/v1/sensor/sensor1" == "POST /api/v1/sensor/sensor1"
  {
    assert "POST" + " " == "POST ";
  }

  lemma SensorLineTail()
    ensures "POST /api/v1/sensor/sensor1" + " HTTP/1.1\r\nContent-Length: "
         == "POST /api/v1/sensor/sensor1 HTTP/1.1\r\nContent-Length: "
  {
  }

  lemma SensorHeaderAndBody()
    ensures "POST /api/v1/sensor/sensor1 HTTP/1.1\r\nContent-Length: " + "9" + "\r\n\r\n" + "activated"
         == "POST /api/v1/sensor/sensor1 HTTP/1.1\r\nContent-Length: 9\r\n\r\nactivated"
  {
    assert "POST /api/v1/sensor/sensor1 HTTP/1.1\r\nContent-Length: " + "9"
        == "POST /api/v1/sensor/sensor1 HTTP/1.1\r\nContent-Length: 9";
    assert "POST /api/v1/sensor/sensor1 HTTP/1.1\r\nContent-Length: 9" + "\r\n\r\n"
        == "POST /api/v1/sensor/sensor1 HTTP/1.1\r\nContent-Length: 9\r\n\r\n";
  }

  /** The frame for method POST, the sensor's path and the body "activated". */
  lemma SensorActivatedFrame()
    ensures Frame("POST", "/api/v1/sensor/sensor1", "activated")
         == "POST /api/v1/sensor/sensor1 HTTP/1.1\r\nContent-Length: 9\r\n\r\nactivated"
  {
    assert Decimal(|"activated"|) == "9";
    FrameFormat("POST", "/api/v1/sensor/sensor1", "activated");
    SensorLineHead();
    SensorLineTail();
    SensorHeaderAndBody();
  }

  // ---------------------------------------------------------------------------
  // An independent reader of the wire format

  /** Index of the first `c` in `s`, or `|s|` when there is none. */
  function Find(s: string, c: char): (i: nat)
    ensures i <= |s|
    ensures i < |s| ==> s[i] == c
    ensures forall j :: 0 <= j < i ==> s[j] != c
  {
    if s == [] then 0 else if s[0] == c then 0 else 1 + Find(s[1..], c)
  }

  /** Reads a frame: the method up to the first space, then the rest of the
      request line and the headers. */
  function ParseFrame(f: string): Option<Message>
  {
    var sp := Find(f, ' ');
    if sp == |f| then None else
    match ParseTarget(f[sp + 1..])
    case None => None
    case Some(pb) => Some(Message(f[..sp], pb.0, pb.1))
  }

  /** The path up to the version that ends the first line; then the headers.
      Gives the path and the body. */
  function ParseTarget(rest: string): Option<(string, string)>
  {
    var cr := Find(rest, '\r');
    if cr < 9 || |rest| < cr + 2 || rest[cr - 9..cr + 2] != Version then None else
    match ParseHeaders(rest[cr + 2..])
    case None => None
    case Some(body) => Some((rest[..cr - 9], body))
  }

  /** The one header, Content-Length, and what follows it. */
  function ParseHeaders(header: string): Option<string>
  {
    if |header| < 16 || header[..16] != LengthName then None else ParseLength(header[16..])
  }

  /** Canonical digits up to the next carriage return, the blank line, and
      then exactly as many bytes as the digits say. */
  function ParseLength(value: string): Option<string>
  {
    var end := Find(value, '\r');
    var tail := value[end..];
    if !Canonical(value[..end]) || |tail| < 4 || tail[..4] != BlankLine
       || |tail| - 4 != ParseDecimal(value[..end])
    then None
    else Some(tail[4..])
  }

  // Small facts about strings the proofs below are built from.

  lemma FindIs(s: string, c: char, k: nat)
    requires k < |s| && s[k] == c
    requires forall j :: 0 <= j < k ==> s[j] != c
    ensures Find(s, c) == k
  {
  }

  lemma FindAfter(a: string, b: string, c: char)
    requires c !in a && |b| > 0 && b[0] == c
    ensures Find(a + b, c) == |a|
  {
    var s := a + b;
    forall j | 0 <= j < |a| ensures s[j] != c {
      assert s[j] == a[j];
    }
    FindIs(s, c, |a|);
  }

  lemma NoneBefore(s: string, c: char, k: nat)
    requires k <= Find(s, c)
    ensures c !in s[..k]
  {
    forall i | 0 <= i < k ensures s[..k][i] != c {
      assert s[..k][i] == s[i];
    }
  }

  lemma Split(s: string, i: nat, j: nat)
    requires i <= j <= |s|
    ensures s == s[..i] + (s[i..j] + s[j..])
  {
  }

  lemma DigitsHaveNoCr(d: string)
    requires AllDigits(d)
    ensures '\r' !in d
  {
    forall i | 0 <= i < |d| ensures d[i] != '\r' {
      assert IsDigit(d[i]);
    }
  }

  lemma VersionHasNoEarlyCr(k: nat)
    requires k < 9
    ensures Version[k] != '\r'
  {
  }

  lemma FindCrAfterPath(path: string, header: string)
    requires '\r' !in path
    ensures Find(path + (Version + header), '\r') == |path| + 9
  {
    var rest := path + (Version + header);
    forall j | 0 <= j < |path| + 9 ensures rest[j] != '\r' {
      if j < |path| {
        assert rest[j] == path[j];
      } else {
        assert rest[j] == Version[j - |path|];
        VersionHasNoEarlyCr(j - |path|);
      }
    }
    assert rest[|path| + 9] == Version[9] == '\r';
    FindIs(rest, '\r', |path| + 9);
  }

  lemma Slices3(a: string, b: string, c: string)
    ensures var s := a + (b + c);
            s[..|a|] == a && s[|a|..|a| + |b|] == b && s[|a| + |b|..] == c
  {
    var s := a + (b + c);
    assert s[|a|..] == b + c;
  }

  // The reader stage by stage, in both directions.

  lemma ParseLengthBuilt(body: string)
    ensures ParseLength(LengthAndBody(body)) == Some(body)
  {
    var d := Decimal(|body|);
    var value := d + (BlankLine + body);
    DigitsHaveNoCr(d);
    FindAfter(d, BlankLine + body, '\r');
    Slices3(d, BlankLine, body);
    DecimalRoundTrip(|body|);
  }

  lemma ParseLengthSound(value: string)
    requires ParseLength(value).Some?
    ensures value == LengthAndBody(ParseLength(value).value)
  {
    var end := Find(value, '\r');
    var digits, tail := value[..end], value[end..];
    var body := tail[4..];
    CanonicalRoundTrip(digits);
    Split(value, end, end + 4);
  }

  lemma ParseHeadersBuilt(body: string)
    ensures ParseHeaders(HeaderBlock(body)) == Some(body)
  {
    var value := LengthAndBody(body);
    var header := LengthName + value;
    assert header[..16] == LengthName && header[16..] == value;
    ParseLengthBuilt(body);
  }

  lemma ParseHeadersSound(header: string)
    requires ParseHeaders(header).Some?
    ensures header == HeaderBlock(ParseHeaders(header).value)
  {
    ParseLengthSound(header[16..]);
    assert header == header[..16] + header[16..];
  }

  lemma ParseTargetBuilt(path: string, body: string)
    requires '\r' !in path
    ensures ParseTarget(FromPath(path, body)) == Some((path, body))
  {
    var header := HeaderBlock(body);
    FindCrAfterPath(path, header);
    Slices3(path, Version, header);
    ParseHeadersBuilt(body);
  }

  lemma ParseTargetSound(rest: string)
    requires ParseTarget(rest).Some?
    ensures var (path, body) := ParseTarget(rest).value;
            '\r' !in path && rest == FromPath(path, body)
  {
    var cr := Find(rest, '\r');
    var header := rest[cr + 2..];
    ParseHeadersSound(header);
    NoneBefore(rest, '\r', cr - 9);
    Split(rest, cr - 9, cr + 2);
  }

  /** Reading a built frame gives back its method, path and body, provided the
      method has no space and the path no carriage return (the token rules of
      an HTTP request line). */
  lemma ParseFrameRoundTrip(httpMethod: string, path: string, body: string)
    requires ' ' !in httpMethod && '\r' !in path
    ensures ParseFrame(Frame(httpMethod, path, body)) == Some(Message(httpMethod, path, body))
  {
    var rest := FromPath(path, body);
    FindAfter(httpMethod, " " + rest, ' ');
    Slices3(httpMethod, " ", rest);
    assert Frame(httpMethod, path, body)[|httpMethod| + 1..] == rest;
    ParseTargetBuilt(path, body);
  }

  /** Everything the reader accepts is a built frame, with a space-free method
      and a path free of carriage returns. */
  lemma ParseFrameSound(f: string)
    requires ParseFrame(f).Some?
    ensures var m := ParseFrame(f).value;
            ' ' !in m.httpMethod && '\r' !in m.path && f == Frame(m.httpMethod, m.path, m.body)
  {
    var sp := Find(f, ' ');
    var rest := f[sp + 1..];
    ParseTargetSound(rest);
    NoneBefore(f, ' ', sp);
    var (path, body) := ParseTarget(rest).value;
    Reassemble(f, sp, path, body);
  }

  lemma Reassemble(f: string, sp: nat, path: string, body: string)
    requires sp < |f| && f[sp] == ' ' && f[sp + 1..] == FromPath(path, body)
    ensures f == Frame(f[..sp], path, body)
  {
    Split(f, sp, sp + 1);
    assert f[sp..sp + 1] == " ";
  }

  /** The reader accepts exactly the built frames whose method has no space
      and whose path has no carriage return, and gives back their method,
      path and body. */
  lemma ParseFrameInverse(f: string, m: Message)
    ensures ParseFrame(f) == Some(m)
        <==> ' ' !in m.httpMethod && '\r' !in m.path && f == Frame(m.httpMethod, m.path, m.body)
  {
    if ParseFrame(f) == Some(m) {
      ParseFrameSound(f);
    }
    if ' ' !in m.httpMethod && '\r' !in m.path && f == Frame(m.httpMethod, m.path, m.body) {
      ParseFrameRoundTrip(m.httpMethod, m.path, m.body);
    }
  }
}
