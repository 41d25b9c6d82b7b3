/** The text handling of the embedded web server: percent-decoding, query strings,
    request parsing, response serialisation, the static-file path check and the
    MIME table. Requests and responses are values; std::map fields are ordered
    association lists. */
module HttpText {
  import opened Wrappers
  import opened Strings
  import opened OrderedMap

  datatype HttpRequest = HttpRequest(httpMethod: string, path: string, body: string,
                                     headers: OMap<string>, query: OMap<string>)

  datatype HttpResponse = HttpResponse(status: int, body: string, headers: OMap<string>)

  /** The four header assignments of the HttpResponse constructor, in order. */
  const DefaultHeaderPairs: seq<(string, string)> :=
    [("Content-Type", "text/html; charset=utf-8"), ("Access-Control-Allow-Origin", "*"),
     ("Access-Control-Allow-Methods", "GET, POST, OPTIONS"), ("Access-Control-Allow-Headers", "Content-Type")]

  /** The headers those assignments leave, in key order. */
  const DefaultHeaders: OMap<string> :=
    [("Access-Control-Allow-Headers", "Content-Type"), ("Access-Control-Allow-Methods", "GET, POST, OPTIONS"),
     ("Access-Control-Allow-Origin", "*"), ("Content-Type", "text/html; charset=utf-8")]

  const AllowPrefix := "Access-Control-Allow-"

  lemma AllowKeys()
    ensures AllowPrefix + "Origin" == "Access-Control-Allow-Origin"
    ensures AllowPrefix + "Methods" == "Access-Control-Allow-Methods"
    ensures AllowPrefix + "Headers" == "Access-Control-Allow-Headers"
  {
  }

  lemma DefaultHeadersAssigned()
    ensures FromPairs(DefaultHeaderPairs) == DefaultHeaders
  {
    AllowKeys();
    StrLtPrefix(AllowPrefix, "Methods", "Origin");
    StrLtPrefix(AllowPrefix, "Headers", "Methods");
    var p := DefaultHeaderPairs;
    FromPairsDescending(p[0], p[1], p[2], p[3]);
    assert [p[0], p[1], p[2], p[3]] == p;
  }

  /** A default-constructed response: status 200, no body, the constructor's headers. */
  function DefaultResponse(): (r: HttpResponse)
    ensures r.status == 200 && r.body == "" && r.headers == DefaultHeaders && Increasing(r.headers)
  {
    DefaultHeadersAssigned();
    FromPairsIncreasing(DefaultHeaderPairs);
    HttpResponse(200, "", DefaultHeaders)
  }

  // ---------------------------------------------------------------------------
  // urlDecode

  predicate IsHex(c: char)
  {
    '0' <= c <= '9' || 'a' <= c <= 'f' || 'A' <= c <= 'F'
  }

  function HexValue(c: char): (v: nat)
    requires IsHex(c)
    ensures v < 16
  {
    if '0' <= c <= '9' then c as nat - '0' as nat
    else if 'a' <= c <= 'f' then c as nat - 'a' as nat + 10
    else c as nat - 'A' as nat + 10
  }

  /** Whether `istream >> std::hex >> int` succeeds on the two characters after a
      '%': the first must be a hex digit, and "0x" or "0X" is taken as the prefix of
      a hex number with no digits after it, which fails. */
  predicate IsEscape(a: char, b: char)
  {
    IsHex(a) && !(a == '0' && (b == 'x' || b == 'X'))
  }

  /** What `istream >> std::hex >> int` reads from the two characters after a '%'
      when it succeeds: both digits, or the first alone when the second is not
      one. */
  function EscapeValue(a: char, b: char): (v: nat)
    requires IsHex(a)
    ensures v < 256
    ensures IsHex(b) ==> v == 16 * HexValue(a) + HexValue(b)
  {
    if IsHex(b) then 16 * HexValue(a) + HexValue(b) else HexValue(a)
  }

  /** The decoding of a text: a '%' with two characters after it that read as a
      hex number becomes the character of that value and consumes both; '+' becomes
      a space; everything else, a '%' included, is copied. */
  function Decoded(s: string): string
    decreases |s|
  {
    if |s| == 0 then ""
    else if s[0] == '%' && 2 < |s| && IsEscape(s[1], s[2]) then [EscapeValue(s[1], s[2]) as char] + Decoded(s[3..])
    else if s[0] == '+' then " " + Decoded(s[1..])
    else [s[0]] + Decoded(s[1..])
  }

  /** urlDecode. */
  method UrlDecode(s: string) returns (r: string)
    ensures r == Decoded(s)
  {
    r := "";
    var i := 0;
    while i < |s|
      invariant i <= |s|
      invariant r + Decoded(s[i..]) == Decoded(s)
    {
      var piece: string;
      if s[i] == '%' && i + 2 < |s| && IsEscape(s[i + 1], s[i + 2]) {
        DecodedEscape(s, i);
        piece := [EscapeValue(s[i + 1], s[i + 2]) as char];
        AppendShift(r, piece, Decoded(s[i + 3..]), Decoded(s));
        i := i + 3;
      } else {
        DecodedOther(s, i);
        piece := if s[i] == '+' then " " else [s[i]];
        AppendShift(r, piece, Decoded(s[i + 1..]), Decoded(s));
        i := i + 1;
      }
      r := r + piece;
    }
  }

  lemma AppendShift(r: string, piece: string, rest: string, total: string)
    requires r + (piece + rest) == total
    ensures (r + piece) + rest == total
  {
  }

  lemma DecodedEscape(s: string, i: nat)
    requires i + 2 < |s| && s[i] == '%' && IsEscape(s[i + 1], s[i + 2])
    ensures Decoded(s[i..]) == [EscapeValue(s[i + 1], s[i + 2]) as char] + Decoded(s[i + 3..])
  {
    assert s[i..][3..] == s[i + 3..];
  }

  lemma DecodedOther(s: string, i: nat)
    requires i < |s| && !(s[i] == '%' && i + 2 < |s| && IsEscape(s[i + 1], s[i + 2]))
    ensures Decoded(s[i..]) == (if s[i] == '+' then " " else [s[i]]) + Decoded(s[i + 1..])
  {
    assert s[i..][1..] == s[i + 1..];
  }

  /** "%0x" is read as an empty hex number, so the '%' is copied and the text
      after it decoded on its own; "%0A" is an escape. */
  lemma HexPrefixCopied()
    ensures Decoded("%0x41") == "%0x41"
    ensures Decoded("%0A") == "\n"
  {
    assert "%0x41"[1..] == "0x41" && "0x41"[1..] == "x41" && "x41"[1..] == "41" && "41"[1..] == "1" && "1"[1..] == "";
    assert "%0A"[3..] == "";
  }

  /** Decoding never lengthens a text. */
  lemma {:induction false} DecodedNoLonger(s: string)
    ensures |Decoded(s)| <= |s|
    decreases |s|
  {
    if |s| > 0 {
      if s[0] == '%' && 2 < |s| && IsEscape(s[1], s[2]) {
        DecodedNoLonger(s[3..]);
      } else {
        DecodedNoLonger(s[1..]);
      }
    }
  }

  /** Without '%', decoding only turns each '+' into a space. */
  lemma {:induction false} DecodedWithoutPercent(s: string)
    requires '%' !in s
    ensures |Decoded(s)| == |s|
    ensures forall i :: 0 <= i < |s| ==> Decoded(s)[i] == if s[i] == '+' then ' ' else s[i]
    decreases |s|
  {
    if |s| > 0 {
      assert s[0] in s;
      var tail := s[1..];
      assert forall j :: 0 <= j < |tail| ==> tail[j] == s[j + 1];
      DecodedWithoutPercent(tail);
      forall i | 0 <= i < |s|
        ensures Decoded(s)[i] == if s[i] == '+' then ' ' else s[i]
      {
        if i > 0 {
          assert tail[i - 1] == s[i];
        }
      }
    }
  }

  /** A text with neither '%' nor '+' decodes to itself. */
  lemma DecodedPlain(s: string)
    requires '%' !in s && '+' !in s
    ensures Decoded(s) == s
  {
    DecodedWithoutPercent(s);
    forall i | 0 <= i < |s|
      ensures Decoded(s)[i] == s[i]
    {
      assert s[i] in s;
    }
  }

  function HexDigit(d: nat): (c: char)
    requires d < 16
    ensures IsHex(c) && HexValue(c) == d
  {
    if d < 10 then ('0' as int + d) as char else ('A' as int + d - 10) as char
  }

  /** The escape "%XY" of a character below 256, with upper-case digits
      (section 2.1 of RFC 3986). */
  function Escape(c: char): (r: string)
    requires c as int < 256
    ensures |r| == 3 && r[0] == '%' && IsHex(r[1]) && IsHex(r[2])
    ensures EscapeValue(r[1], r[2]) == c as int
  {
    ['%', HexDigit(c as int / 16), HexDigit(c as int % 16)]
  }

  predicate BelowByte(s: string)
  {
    forall i :: 0 <= i < |s| ==> s[i] as int < 256
  }

  /** Every character escaped. */
  function PercentEncoded(s: string): (r: string)
    requires BelowByte(s)
    ensures |r| == 3 * |s|
  {
    if |s| == 0 then "" else Escape(s[0]) + PercentEncoded(s[1..])
  }

  /** Decoding undoes percent-encoding. */
  lemma {:induction false} DecodeEncoded(s: string)
    requires BelowByte(s)
    ensures Decoded(PercentEncoded(s)) == s
    decreases |s|
  {
    if |s| > 0 {
      var e := PercentEncoded(s);
      var x := Escape(s[0]);
      var rest := PercentEncoded(s[1..]);
      assert e == x + rest;
      assert e[0] == '%' && e[1] == x[1] && e[2] == x[2];
      assert e[3..] == rest;
      DecodeEncoded(s[1..]);
      assert Decoded(e) == [s[0]] + s[1..];
    }
  }

  // ---------------------------------------------------------------------------
  // parseQueryString

  /** The (key, value) a piece of a query string contributes: split at its first
      '=' and both sides decoded; a piece without '=' contributes nothing. */
  function QueryPair(piece: string): (r: Option<(string, string)>)
    ensures r.Some? <==> '=' in piece
  {
    match FindChar(piece, '=')
    case None => None
    case Some(e) => Some((Decoded(piece[..e]), Decoded(piece[e + 1..])))
  }

  /** The pairs of the pieces, in order. */
  function QueryPairs(pieces: seq<string>): seq<(string, string)>
    decreases |pieces|
  {
    if |pieces| == 0 then []
    else
      var n := |pieces| - 1;
      QueryPairs(pieces[..n]) + (match QueryPair(pieces[n]) case Some(p) => [p] case None => [])
  }

  /** The parameters of a query string: the '&'-separated pieces assigned in
      order. */
  function Query(q: string): OMap<string>
  {
    FromPairs(QueryPairs(SplitGetline(q, '&')))
  }

  /** The map after one more piece: the piece's pair assigned, or nothing. */
  function AfterPiece(m: OMap<string>, piece: string): OMap<string>
  {
    match QueryPair(piece)
    case Some(p) => Insert(m, p.0, p.1)
    case None => m
  }

  /** The pairs a single piece contributes. */
  function PairList(piece: string): seq<(string, string)>
  {
    match QueryPair(piece)
    case Some(p) => [p]
    case None => []
  }

  lemma QueryPairsStep(pieces: seq<string>, k: nat)
    requires k < |pieces|
    ensures QueryPairs(pieces[..k + 1]) == QueryPairs(pieces[..k]) + PairList(pieces[k])
  {
    var next := pieces[..k + 1];
    assert next[..k] == pieces[..k];
  }

  lemma AfterPieceFromPairs(ps: seq<(string, string)>, piece: string)
    ensures FromPairs(ps + PairList(piece)) == AfterPiece(FromPairs(ps), piece)
  {
    match QueryPair(piece)
    case Some(p) => FromPairsSnoc(ps, p);
    case None => assert ps + [] == ps;
  }

  lemma QueryStep(pieces: seq<string>, k: nat)
    requires k < |pieces|
    ensures FromPairs(QueryPairs(pieces[..k + 1])) == AfterPiece(FromPairs(QueryPairs(pieces[..k])), pieces[k])
  {
    QueryPairsStep(pieces, k);
    AfterPieceFromPairs(QueryPairs(pieces[..k]), pieces[k]);
  }

  /** parseQueryString. */
  method ParseQueryString(q: string) returns (params: OMap<string>)
    ensures params == Query(q)
  {
    var pieces := SplitGetline(q, '&');
    params := [];
    for k := 0 to |pieces|
      invariant params == FromPairs(QueryPairs(pieces[..k]))
    {
      QueryStep(pieces, k);
      var pair := pieces[k];
      var eq := FindChar(pair, '=');
      if eq.Some? {
        var key := UrlDecode(pair[..eq.value]);
        var value := UrlDecode(pair[eq.value + 1..]);
        params := Insert(params, key, value);
      }
    }
    assert pieces[..|pieces|] == pieces;
  }

  /** Whether a piece assigns key k. */
  predicate Assigns(piece: string, k: string)
  {
    QueryPair(piece).Some? && QueryPair(piece).value.0 == k
  }

  /** A last piece that does not assign k leaves k as it was. */
  lemma QueryKeeps(pieces: seq<string>, k: string)
    requires |pieces| > 0 && !Assigns(pieces[|pieces| - 1], k)
    ensures Get(FromPairs(QueryPairs(pieces)), k) == Get(FromPairs(QueryPairs(pieces[..|pieces| - 1])), k)
  {
    var n := |pieces| - 1;
    QueryStep(pieces, n);
    assert pieces[..n + 1] == pieces;
    match QueryPair(pieces[n])
    case Some(p) => InsertKeeps(FromPairs(QueryPairs(pieces[..n])), p.0, p.1, k);
    case None =>
  }

  /** A last piece that assigns k gives k its value. */
  lemma QueryAssigns(pieces: seq<string>, k: string, v: string)
    requires |pieces| > 0 && QueryPair(pieces[|pieces| - 1]) == Some((k, v))
    ensures Get(FromPairs(QueryPairs(pieces)), k) == Some(v)
  {
    var n := |pieces| - 1;
    QueryStep(pieces, n);
    assert pieces[..n + 1] == pieces;
    InsertReads(FromPairs(QueryPairs(pieces[..n])), k, v);
  }

  /** A piece assigning k whose key no later piece repeats gives k its value:
      a later duplicate overwrites an earlier one. */
  lemma {:induction false} LaterPieceWins(pieces: seq<string>, i: nat, k: string, v: string)
    requires i < |pieces| && QueryPair(pieces[i]) == Some((k, v))
    requires forall j :: i < j < |pieces| ==> !Assigns(pieces[j], k)
    ensures Get(FromPairs(QueryPairs(pieces)), k) == Some(v)
    decreases |pieces|
  {
    var n := |pieces| - 1;
    if i == n {
      QueryAssigns(pieces, k, v);
    } else {
      var prefix := pieces[..n];
      forall j | i <= j < |prefix|
        ensures prefix[j] == pieces[j]
      {
      }
      LaterPieceWins(prefix, i, k, v);
      QueryKeeps(pieces, k);
    }
  }

  /** A key no piece assigns is absent. */
  lemma {:induction false} NoPieceNoKey(pieces: seq<string>, k: string)
    requires forall j :: 0 <= j < |pieces| ==> !Assigns(pieces[j], k)
    ensures Get(FromPairs(QueryPairs(pieces)), k) == None
    decreases |pieces|
  {
    if |pieces| > 0 {
      var prefix := pieces[..|pieces| - 1];
      forall j | 0 <= j < |prefix|
        ensures prefix[j] == pieces[j]
      {
      }
      NoPieceNoKey(prefix, k);
      QueryKeeps(pieces, k);
    }
  }

  /** The query-string view of the two lemmas above. */
  lemma QueryLastWins(q: string, i: nat, k: string, v: string)
    requires i < |SplitGetline(q, '&')| && QueryPair(SplitGetline(q, '&')[i]) == Some((k, v))
    requires forall j :: i < j < |SplitGetline(q, '&')| ==> !Assigns(SplitGetline(q, '&')[j], k)
    ensures Get(Query(q), k) == Some(v)
  {
    LaterPieceWins(SplitGetline(q, '&'), i, k, v);
  }

  lemma QueryAbsent(q: string, k: string)
    requires forall j :: 0 <= j < |SplitGetline(q, '&')| ==> !Assigns(SplitGetline(q, '&')[j], k)
    ensures Get(Query(q), k) == None
  {
    NoPieceNoKey(SplitGetline(q, '&'), k);
  }

  // ---------------------------------------------------------------------------
  // parseRequest

  /** The characters `>>` skips as white space. */
  const Blank: set<char> := {' ', '\t', '\n', '\r', '\U{000B}', '\U{000C}'}

  /** The length of the leading run of non-blank characters. */
  function WordLength(s: string): (n: nat)
    ensures n <= |s| && (n < |s| ==> s[n] in Blank)
    ensures forall j :: 0 <= j < n ==> s[j] !in Blank
  {
    if |s| == 0 || s[0] in Blank then 0
    else
      var n := WordLength(s[1..]);
      assert forall j :: 1 <= j < n + 1 ==> s[j] == s[1..][j - 1];
      1 + n
  }

  /** `stream >> word`: blanks skipped, then the next run of non-blanks ("" when
      the text holds none), and the text after it. */
  function NextWord(s: string): (r: (string, string))
    ensures forall j :: 0 <= j < |r.0| ==> r.0[j] !in Blank
    ensures |r.1| <= |s|
  {
    var t := TrimLeft(s, Blank);
    var n := WordLength(t);
    (t[..n], t[n..])
  }

  /** The path of a request target: the text before its first '?'. */
  function PathOf(target: string): string
  {
    match FindChar(target, '?')
    case None => target
    case Some(q) => target[..q]
  }

  /** The query parameters of a request target: those of the text after its first
      '?', none without one. */
  function QueryOf(target: string): OMap<string>
  {
    match FindChar(target, '?')
    case None => []
    case Some(q) => Query(target[q + 1..])
  }

  const FieldLead: set<char> := {' ', '\t'}
  const FieldTail: set<char> := {' ', '\t', '\r'}

  /** A header line split at its first ':', at c: the key before it and the value
      after it, trimmed of its surrounding blanks. */
  function SplitField(line: string, c: nat): (kv: (string, string))
    requires c < |line| && line[c] == ':'
    ensures kv.0 == line[..c] && |kv.0| == c && IsAt(line, kv.0 + ":", 0)
    ensures Trimmed(line[c + 1..], kv.1, FieldLead, FieldTail)
  {
    assert line[..c + 1] == line[..c] + ":";
    (line[..c], Trim(line[c + 1..], FieldLead, FieldTail))
  }

  /** A header line: the key is the text before the first ':', the value the text
      after it without leading blanks or tabs and without trailing blanks, tabs or
      CR. A line without ':' is ignored. */
  function HeaderField(line: string): (r: Option<(string, string)>)
    ensures r.Some? <==> ':' in line
    ensures r.Some? ==> |r.value.0| < |line| && ':' !in r.value.0 && IsAt(line, r.value.0 + ":", 0)
    ensures r.Some? ==> Trimmed(line[|r.value.0| + 1..], r.value.1, FieldLead, FieldTail)
  {
    match FindChar(line, ':')
    case None => None
    case Some(c) =>
      Some(SplitField(line, c))
  }

  /** The fields of the header lines, in order. */
  function HeaderFields(lines: seq<string>): seq<(string, string)>
    decreases |lines|
  {
    if |lines| == 0 then []
    else
      var n := |lines| - 1;
      HeaderFields(lines[..n]) + (match HeaderField(lines[n]) case Some(p) => [p] case None => [])
  }

  /** The number of header lines: those before the first line equal to "\r". */
  function HeadLength(lines: seq<string>): (n: nat)
    ensures n <= |lines| && (n < |lines| ==> lines[n] == "\r")
  {
    if |lines| == 0 || lines[0] == "\r" then 0
    else 1 + HeadLength(lines[1..])
  }

  /** No line before the head length is "\r". */
  lemma {:induction false} HeadLengthBefore(lines: seq<string>, j: nat)
    requires j < HeadLength(lines)
    ensures lines[j] != "\r"
    decreases |lines|
  {
    if j > 0 {
      HeadLengthBefore(lines[1..], j - 1);
      assert lines[1..][j - 1] == lines[j];
    }
  }

  /** Scanning up to the head length, a line other than "\r" is not yet the end. */
  lemma HeadLengthPast(lines: seq<string>, n: nat)
    requires n <= HeadLength(lines) && n < |lines| && lines[n] != "\r"
    ensures n + 1 <= HeadLength(lines)
  {
  }

  /** Scanning up to the head length, the end of the lines or a "\r" line is the end. */
  lemma HeadLengthReached(lines: seq<string>, n: nat)
    requires n <= HeadLength(lines) && (n == |lines| || lines[n] == "\r")
    ensures n == HeadLength(lines)
  {
    if n < HeadLength(lines) {
      HeadLengthBefore(lines, n);
    }
  }

  /** The headers of the lines after the request line: the fields of those before
      the first "\r" line, assigned in order. */
  function HeadersOf(rest: seq<string>): OMap<string>
  {
    FromPairs(HeaderFields(rest[..HeadLength(rest)]))
  }

  /** The body: the lines after the first "\r" line joined by '\n'; empty when
      there is no such line. */
  function BodyOf(rest: seq<string>): string
  {
    var n := HeadLength(rest);
    if n < |rest| then Join(rest[n + 1..], '\n') else ""
  }

  /** The request a text parses to: the method and target are the first two words
      of the first line, and the remaining lines give the headers and the body. */
  function RequestOf(data: string): HttpRequest
  {
    var lines := SplitGetline(data, '\n');
    var first := if |lines| == 0 then "" else lines[0];
    var rest := if |lines| == 0 then [] else lines[1..];
    var target := NextWord(NextWord(first).1).0;
    HttpRequest(NextWord(first).0, PathOf(target), BodyOf(rest), HeadersOf(rest), QueryOf(target))
  }

  /** The fields after one more header line. */
  function AfterField(m: OMap<string>, line: string): OMap<string>
  {
    match HeaderField(line)
    case Some(p) => Insert(m, p.0, p.1)
    case None => m
  }

  /** The fields a single line contributes. */
  function FieldList(line: string): seq<(string, string)>
  {
    match HeaderField(line)
    case Some(p) => [p]
    case None => []
  }

  lemma HeaderFieldsStep(lines: seq<string>, k: nat)
    requires k < |lines|
    ensures HeaderFields(lines[..k + 1]) == HeaderFields(lines[..k]) + FieldList(lines[k])
  {
    var next := lines[..k + 1];
    assert next[..k] == lines[..k];
  }

  lemma AfterFieldFromPairs(ps: seq<(string, string)>, line: string)
    ensures FromPairs(ps + FieldList(line)) == AfterField(FromPairs(ps), line)
  {
    match HeaderField(line)
    case Some(p) => FromPairsSnoc(ps, p);
    case None => assert ps + [] == ps;
  }

  lemma HeaderStep(lines: seq<string>, k: nat)
    requires k < |lines|
    ensures FromPairs(HeaderFields(lines[..k + 1])) == AfterField(FromPairs(HeaderFields(lines[..k])), lines[k])
  {
    HeaderFieldsStep(lines, k);
    AfterFieldFromPairs(HeaderFields(lines[..k]), lines[k]);
  }

  /** The lines, each followed by '\n'. */
  function Terminated(lines: seq<string>): string
    decreases |lines|
  {
    if |lines| == 0 then "" else lines[0] + "\n" + Terminated(lines[1..])
  }

  /** Terminated from i on is line i, a '\n', and Terminated from i + 1 on. */
  lemma TerminatedStep(lines: seq<string>, i: nat)
    requires i < |lines|
    ensures Terminated(lines[i..]) == lines[i] + "\n" + Terminated(lines[i + 1..])
  {
    assert lines[i..][1..] == lines[i + 1..];
  }

  lemma {:induction false} TerminatedJoin(lines: seq<string>)
    requires |lines| > 0
    ensures Terminated(lines) == Join(lines, '\n') + "\n"
    decreases |lines|
  {
    if |lines| > 1 {
      TerminatedJoin(lines[1..]);
    }
  }

  /** Every line adds its '\n', so the text is empty only without lines. */
  lemma TerminatedEmpty(lines: seq<string>)
    ensures |Terminated(lines)| == 0 <==> |lines| == 0
  {
  }

  /** Removing the last '\n' of the terminated lines leaves them joined. */
  lemma DropLastNewline(lines: seq<string>, body: string)
    requires body == Terminated(lines)
    ensures (if |body| > 0 then body[..|body| - 1] else body) == Join(lines, '\n')
  {
    TerminatedEmpty(lines);
    if |lines| > 0 {
      TerminatedJoin(lines);
      var joined := Join(lines, '\n');
      assert body == joined + "\n";
      assert body[..|body| - 1] == joined;
    }
  }

  /** parseRequest, first phase: the method and the target of the request line. */
  method ParseRequestLine(first: string) returns (verb: string, path: string, query: OMap<string>)
    ensures var target := NextWord(NextWord(first).1).0;
            verb == NextWord(first).0 && path == PathOf(target) && query == QueryOf(target)
  {
    var w := NextWord(first);
    var target := NextWord(w.1).0;
    verb := w.0;
    var q := FindChar(target, '?');
    if q.Some? {
      path := target[..q.value];
      query := ParseQueryString(target[q.value + 1..]);
    } else {
      path := target;
      query := [];
    }
  }

  /** parseRequest, second phase: header lines up to the first "\r" line. */
  method ParseHeaders(rest: seq<string>) returns (headers: OMap<string>, n: nat)
    ensures n == HeadLength(rest) && headers == HeadersOf(rest)
  {
    headers := [];
    n := 0;
    while n < |rest| && rest[n] != "\r"
      invariant n <= HeadLength(rest)
      invariant headers == FromPairs(HeaderFields(rest[..n]))
    {
      HeadLengthPast(rest, n);
      HeaderStep(rest, n);
      var field := HeaderField(rest[n]);
      if field.Some? {
        headers := Insert(headers, field.value.0, field.value.1);
      }
      assert headers == AfterField(FromPairs(HeaderFields(rest[..n])), rest[n]);
      n := n + 1;
    }
    HeadLengthReached(rest, n);
  }

  /** The body loop of parseRequest: every line followed by '\n'. */
  method TerminateLines(lines: seq<string>) returns (body: string)
    ensures body == Terminated(lines)
  {
    body := "";
    var i := 0;
    assert lines[i..] == lines;
    while i < |lines|
      invariant i <= |lines|
      invariant body + Terminated(lines[i..]) == Terminated(lines)
    {
      TerminatedStep(lines, i);
      AppendShift(body, lines[i] + "\n", Terminated(lines[i + 1..]), Terminated(lines));
      body := body + (lines[i] + "\n");
      i := i + 1;
    }
  }

  /** parseRequest, third phase: every line after the "\r" line at n, each
      followed by '\n', and then the last '\n' removed. */
  method ParseBody(rest: seq<string>, n: nat) returns (body: string)
    requires n == HeadLength(rest)
    ensures body == BodyOf(rest)
  {
    body := "";
    if n < |rest| {
      body := TerminateLines(rest[n + 1..]);
      DropLastNewline(rest[n + 1..], body);
      if |body| > 0 {
        body := body[..|body| - 1];
      }
    }
  }

  /** parseRequest. */
  method ParseRequest(data: string) returns (req: HttpRequest)
    ensures req == RequestOf(data)
  {
    var lines := SplitGetline(data, '\n');
    var verb, path, query := "", "", [];
    if |lines| > 0 {
      verb, path, query := ParseRequestLine(lines[0]);
    }
    var rest := if |lines| == 0 then [] else lines[1..];
    var headers, n := ParseHeaders(rest);
    var body := ParseBody(rest, n);
    req := HttpRequest(verb, path, body, headers, query);
  }

  // ---------------------------------------------------------------------------
  // buildResponse

  /** The reason phrase: a fixed text for 200, 404 and 500, "Unknown" for every
      other code. */
  function StatusText(code: int): (r: string)
    ensures r == "Unknown" <==> code != 200 && code != 404 && code != 500
  {
    if code == 200 then "OK"
    else if code == 404 then "Not Found"
    else if code == 500 then "Internal Server Error"
    else "Unknown"
  }

  function StatusLine(code: int): string
  {
    "HTTP/1.1 " + IntToString(code) + " " + StatusText(code) + "\r\n"
  }

  /** One "key: value" CRLF line per header, in the map's (ascending key) order. */
  function HeaderLines(hs: OMap<string>): string
    decreases |hs|
  {
    if |hs| == 0 then "" else hs[0].0 + ": " + hs[0].1 + "\r\n" + HeaderLines(hs[1..])
  }

  /** The text of a response. */
  function Serialized(r: HttpResponse): string
  {
    StatusLine(r.status) + HeaderLines(r.headers) + Framing(|r.body|) + r.body
  }

  /** The Content-Length line and the empty line that end the head. */
  function Framing(n: nat): string
  {
    "Content-Length: " + NatToString(n) + "\r\n" + "\r\n"
  }

  /** buildResponse. */
  method BuildResponse(r: HttpResponse) returns (out: string)
    ensures out == Serialized(r)
  {
    out := "HTTP/1.1 " + IntToString(r.status) + " ";
    out := out + StatusText(r.status);
    out := out + "\r\n";
    ghost var head := out;
    var i := 0;
    while i < |r.headers|
      invariant i <= |r.headers|
      invariant out + HeaderLines(r.headers[i..]) == head + HeaderLines(r.headers)
    {
      assert r.headers[i..][1..] == r.headers[i + 1..];
      var line := r.headers[i].0 + ": " + r.headers[i].1 + "\r\n";
      AppendShift(out, line, HeaderLines(r.headers[i + 1..]), head + HeaderLines(r.headers));
      out := out + line;
      i := i + 1;
    }
    out := out + Framing(|r.body|);
    out := out + r.body;
  }

  /** A response text starts with its status line, ends with the body, and the
      body is preceded by a Content-Length line whose value is the body's length
      and by the empty line. */
  lemma ResponseFraming(r: HttpResponse)
    ensures var out := Serialized(r); var d := NatToString(|r.body|); var n := |out| - |r.body|;
      && n >= |d| + 20
      && out[n..] == r.body
      && out[n - |d| - 20..n] == "Content-Length: " + d + "\r\n\r\n"
      && AllDigits(d) && ParseNat(d) == |r.body|
      && out[..|StatusLine(r.status)|] == StatusLine(r.status)
  {
    var d := NatToString(|r.body|);
    var line := StatusLine(r.status);
    var head := line + HeaderLines(r.headers);
    var tail := Framing(|r.body|);
    assert tail == "Content-Length: " + d + "\r\n\r\n" && |tail| == |d| + 20;
    SliceThree(head, tail, r.body);
    SlicePrefix(line, HeaderLines(r.headers), tail, r.body);
    NatToStringRoundTrip(|r.body|);
  }

  lemma SliceThree(a: string, b: string, c: string)
    ensures (a + b + c)[|a| + |b|..] == c && (a + b + c)[|a|..|a| + |b|] == b
  {
  }

  lemma SlicePrefix(a: string, b: string, c: string, d: string)
    ensures (a + b + c + d)[..|a|] == a
  {
  }

  // ---------------------------------------------------------------------------
  // handleStaticFile and getMimeType

  const MimeTypes: set<string> :=
    {"text/html", "text/css", "application/javascript", "application/json", "image/png",
     "image/jpeg", "image/gif", "image/svg+xml", "image/x-icon", "text/plain"}

  /** The MIME table by extension. */
  function MimeOfExtension(ext: string): (r: string)
    ensures r in MimeTypes
  {
    if ext == "html" || ext == "htm" then "text/html"
    else if ext == "css" then "text/css"
    else if ext == "js" then "application/javascript"
    else if ext == "json" then "application/json"
    else if ext == "png" then "image/png"
    else if ext == "jpg" || ext == "jpeg" then "image/jpeg"
    else if ext == "gif" then "image/gif"
    else if ext == "svg" then "image/svg+xml"
    else if ext == "ico" then "image/x-icon"
    else "text/plain"
  }

  /** getMimeType: the text after the last '.' looked up in the table; a name with
      no '.' is plain text. */
  function MimeType(filename: string): (r: string)
    ensures r in MimeTypes
    ensures '.' !in filename ==> r == "text/plain"
  {
    match FindLastChar(filename, '.')
    case None => "text/plain"
    case Some(d) => MimeOfExtension(filename[d + 1..])
  }

  /** Only the last extension counts: "a.tar.css" is CSS. */
  lemma LastDotDecides(stem: string, ext: string)
    requires '.' !in ext
    ensures MimeType(stem + "." + ext) == MimeOfExtension(ext)
  {
    var f := stem + "." + ext;
    var d := FindLastChar(f, '.');
    assert f[|stem|] == '.';
    assert d.Some?;
    assert f[|stem| + 1..] == ext;
  }

  /** The file a path names: the static directory and the path, with
      "/index.html" added for the root. */
  function FilePath(dir: string, path: string): string
  {
    if path == "/" then dir + path + "/index.html" else dir + path
  }

  function Forbidden(): HttpResponse
  {
    DefaultResponse().(status := 403, body := "Forbidden")
  }

  /** handleStaticFile, with the file system as a total reader (None when the file
      cannot be opened). */
  function StaticFile(dir: string, path: string, read: string -> Option<string>): (r: HttpResponse)
    ensures !Contains(FilePath(dir, path), "..") ==>
      (r.status == 404 <==> read(FilePath(dir, path)).None?)
  {
    var file := FilePath(dir, path);
    if Contains(file, "..") then Forbidden()
    else match read(file)
      case None => DefaultResponse().(status := 404, body := "File not found")
      case Some(content) =>
        DefaultResponse().(body := content, headers := Insert(DefaultResponse().headers, "Content-Type", MimeType(file)))
  }

  /** A path that together with the directory contains ".." is refused with 403
      before any file is read: the result does not depend on the file system. */
  lemma TraversalRefused(dir: string, path: string, read: string -> Option<string>, other: string -> Option<string>)
    requires Contains(dir + path, "..")
    ensures StaticFile(dir, path, read) == Forbidden()
    ensures StaticFile(dir, path, read) == StaticFile(dir, path, other)
  {
    var i: nat :| i <= |dir + path| && IsAt(dir + path, "..", i);
    var file := FilePath(dir, path);
    assert file[..|dir + path|] == dir + path;
    assert file[i..i + 2] == (dir + path)[i..i + 2];
    assert IsAt(file, "..", i);
  }

  /** The root path serves index.html from the static directory as HTML. */
  lemma RootServesIndex(dir: string, read: string -> Option<string>)
    requires !Contains(dir + "//index.html", "..") && read(dir + "//index.html").Some?
    ensures StaticFile(dir, "/", read).status == 200
    ensures StaticFile(dir, "/", read).body == read(dir + "//index.html").value
    ensures Get(StaticFile(dir, "/", read).headers, "Content-Type") == Some("text/html")
  {
    assert FilePath(dir, "/") == (dir + "//index") + "." + "html" == dir + "//index.html";
    LastDotDecides(dir + "//index", "html");
  }
}
