/** The incremental HTTP response parser: it is run on the whole buffer after every chunk. Bytes are
    read as ISO-8859-1 characters. */
module HttpResponse {
  import opened Outcomes
  import BleProtocol

  type Byte = BleProtocol.Byte
  type Bytes = BleProtocol.Bytes

  const HEADER_LIMIT: nat := 16384
  const BODY_LIMIT: nat := 9 * 1024 * 1024
  const CHUNK_LIMIT: nat := 16384
  /** Python refuses to convert longer decimal strings. */
  const INT_DIGITS: nat := 4300

  const CR: Byte := 13
  const LF: Byte := 10
  const SPACE: Byte := 32
  const COLON: Byte := 58
  const ZERO: Byte := 48
  const MARKER: Bytes := [CR, LF, CR, LF]

  datatype Response = Response(status: int, headers: map<Bytes, Bytes>, body: Bytes)

  datatype Parsed = Incomplete | Complete(response: Response) | Malformed

  // ---- Text ----

  /** What str.strip removes, among the first 256 characters. */
  predicate IsSpace(b: Byte) {
    9 <= b <= 13 || 28 <= b <= 32 || b == 133 || b == 160
  }

  function StripLeft(s: Bytes): Bytes {
    if s != [] && IsSpace(s[0]) then StripLeft(s[1..]) else s
  }

  function StripRight(s: Bytes): Bytes {
    if s != [] && IsSpace(s[|s| - 1]) then StripRight(s[..|s| - 1]) else s
  }

  function Strip(s: Bytes): Bytes {
    StripRight(StripLeft(s))
  }

  function LowerByte(b: Byte): Byte {
    if 65 <= b <= 90 || (192 <= b <= 222 && b != 215) then b + 32 else b
  }

  function Lower(s: Bytes): Bytes {
    if s == [] then [] else [LowerByte(s[0])] + Lower(s[1..])
  }

  /** Where a byte first occurs. */
  function IndexOf(s: Bytes, b: Byte): Option<nat> {
    if s == [] then None
    else if s[0] == b then Some(0)
    else
      match IndexOf(s[1..], b)
      case None => None
      case Some(i) => Some(i + 1)
  }

  predicate IsDigit(b: Byte) {
    48 <= b <= 57
  }

  /** str.isdigit also takes the superscripts, which int then refuses. */
  predicate AllDigitLike(s: Bytes) {
    s != [] && forall i :: 0 <= i < |s| ==> IsDigit(s[i]) || s[i] == 178 || s[i] == 179 || s[i] == 185
  }

  /** Decimal digits with single underscores between them. */
  predicate DigitGroups(s: Bytes) {
    && s != []
    && IsDigit(s[0]) && IsDigit(s[|s| - 1])
    && (forall i :: 0 <= i < |s| ==> IsDigit(s[i]) || s[i] == 95)
    && (forall i, j :: 0 <= i < |s| && i < j < |s| && j == i + 1 ==> s[i] != 95 || s[j] != 95)
  }

  function Digits(s: Bytes): Bytes {
    if s == [] then [] else Digits(s[..|s| - 1]) + (if IsDigit(s[|s| - 1]) then [s[|s| - 1]] else [])
  }

  function Decimal(s: Bytes): nat {
    if s == [] then 0
    else 10 * Decimal(s[..|s| - 1]) + (if IsDigit(s[|s| - 1]) then s[|s| - 1] - ZERO else 0)
  }

  /** Python's int() on a string. */
  function ToInt(text: Bytes): Option<int> {
    var s := Strip(text);
    var sign := s != [] && (s[0] == 43 || s[0] == 45);
    var body := if sign then s[1..] else s;
    if !DigitGroups(body) || |Digits(body)| > INT_DIGITS then None
    else
      var magnitude: int := Decimal(Digits(body));
      Some(if sign && s[0] == 45 then -magnitude else magnitude)
  }

  // ---- The header block ----

  const HTTP_1_1: Bytes := [72, 84, 84, 80, 47, 49, 46, 49]
  const TRANSFER_ENCODING: Bytes :=
    [116, 114, 97, 110, 115, 102, 101, 114, 45, 101, 110, 99, 111, 100, 105, 110, 103]
  const CONTENT_ENCODING: Bytes :=
    [99, 111, 110, 116, 101, 110, 116, 45, 101, 110, 99, 111, 100, 105, 110, 103]
  const CONTENT_LENGTH: Bytes :=
    [99, 111, 110, 116, 101, 110, 116, 45, 108, 101, 110, 103, 116, 104]
  const IDENTITY: Bytes := [105, 100, 101, 110, 116, 105, 116, 121]

  predicate BreakAt(s: Bytes, i: nat) {
    i + 2 <= |s| && s[i] == CR && s[i + 1] == LF
  }

  function LineEnd(s: Bytes, i: nat): nat
    requires i <= |s|
    ensures i <= LineEnd(s, i) <= |s|
    ensures LineEnd(s, i) < |s| ==> BreakAt(s, LineEnd(s, i))
    decreases |s| - i
  {
    if i == |s| || BreakAt(s, i) then i else LineEnd(s, i + 1)
  }

  function Lines(s: Bytes): seq<Bytes>
    ensures Lines(s) != []
    decreases |s|
  {
    var end := LineEnd(s, 0);
    if end == |s| then [s] else [s[..end]] + Lines(s[end + 2..])
  }

  /** The three parts of the status line. */
  function StatusOf(line: Bytes): Option<int> {
    match IndexOf(line, SPACE)
    case None => None
    case Some(i) =>
      IndexFits(line, SPACE);
      var rest := line[i + 1..];
      match IndexOf(rest, SPACE)
      case None => None
      case Some(j) =>
        IndexFits(rest, SPACE);
        if line[..i] != HTTP_1_1 then None
        else
          match ToInt(rest[..j])
          case None => None
          case Some(status) => if 100 <= status < 600 then Some(status) else None
  }

  lemma IndexFits(s: Bytes, b: Byte)
    ensures IndexOf(s, b).Some? ==> IndexOf(s, b).value < |s| && s[IndexOf(s, b).value] == b
    ensures IndexOf(s, b).Some? ==> forall i :: 0 <= i < IndexOf(s, b).value ==> s[i] != b
  {
  }

  /** One header field, its name folded and both parts stripped. */
  function FieldOf(line: Bytes): Option<(Bytes, Bytes)> {
    match IndexOf(line, COLON)
    case None => None
    case Some(i) =>
      IndexFits(line, COLON);
      var key := Lower(Strip(line[..i]));
      if key == [] then None else Some((key, Strip(line[i + 1..])))
  }

  /** All fields, each name once. */
  function Fields(lines: seq<Bytes>): Option<map<Bytes, Bytes>> {
    if lines == [] then Some(map[])
    else
      match Fields(lines[..|lines| - 1])
      case None => None
      case Some(before) =>
        match FieldOf(lines[|lines| - 1])
        case None => None
        case Some(field) => if field.0 in before then None else Some(before[field.0 := field.1])
  }

  lemma {:induction false} FieldsOfPrefix(lines: seq<Bytes>, n: nat)
    requires n <= |lines| && Fields(lines[..n]).None?
    ensures Fields(lines).None?
    decreases |lines| - n
  {
    if n < |lines| {
      assert lines[..n + 1][..n] == lines[..n];
      FieldsOfPrefix(lines, n + 1);
    } else {
      assert lines[..n] == lines;
    }
  }

  /** Collect the fields line by line. */
  method CollectFields(lines: seq<Bytes>) returns (fields: Option<map<Bytes, Bytes>>)
    ensures fields == Fields(lines)
  {
    var headers: map<Bytes, Bytes> := map[];
    var i := 0;
    while i < |lines|
      invariant 0 <= i <= |lines|
      invariant Fields(lines[..i]) == Some(headers)
    {
      assert lines[..i + 1][..i] == lines[..i];
      var field := FieldOf(lines[i]);
      if field.None? || field.value.0 in headers {
        FieldsOfPrefix(lines, i + 1);
        return None;
      }
      headers := headers[field.value.0 := field.value.1];
      i := i + 1;
    }
    assert lines[..i] == lines;
    return Some(headers);
  }

  datatype Head = Head(status: int, headers: map<Bytes, Bytes>, length: nat)

  /** The body length a header block announces. */
  function LengthOf(headers: map<Bytes, Bytes>): Option<nat> {
    if TRANSFER_ENCODING in headers then None
    else if CONTENT_ENCODING in headers && Lower(headers[CONTENT_ENCODING]) != IDENTITY then None
    else if CONTENT_LENGTH !in headers then None
    else
      var value := headers[CONTENT_LENGTH];
      if !AllDigitLike(value) then None
      else
        match ToInt(value)
        case None => None
        case Some(length) => if 0 <= length <= BODY_LIMIT then Some(length) else None
  }

  function HeadOf(text: Bytes): Option<Head> {
    var lines := Lines(text);
    match StatusOf(lines[0])
    case None => None
    case Some(status) =>
      match Fields(lines[1..])
      case None => None
      case Some(headers) =>
        match LengthOf(headers)
        case None => None
        case Some(length) => Some(Head(status, headers, length))
  }

  // ---- One parse ----

  predicate MarkerAt(raw: Bytes, i: nat) {
    i + 4 <= |raw| && raw[i..i + 4] == MARKER
  }

  function FindFrom(raw: Bytes, i: nat): (m: Option<nat>)
    ensures m.Some? ==> i <= m.value && MarkerAt(raw, m.value) && forall j :: i <= j < m.value ==> !MarkerAt(raw, j)
    ensures m.None? ==> forall j :: i <= j ==> !MarkerAt(raw, j)
    decreases |raw| - i
  {
    if i + 4 > |raw| then None
    else if MarkerAt(raw, i) then Some(i)
    else FindFrom(raw, i + 1)
  }

  function Find(raw: Bytes): Option<nat> {
    FindFrom(raw, 0)
  }

  function Parse(raw: Bytes): Parsed {
    match Find(raw)
    case None => if |raw| > HEADER_LIMIT then Malformed else Incomplete
    case Some(marker) =>
      if marker > HEADER_LIMIT then Malformed
      else
        match HeadOf(raw[..marker])
        case None => Malformed
        case Some(head) =>
          var body := raw[marker + 4..];
          if |body| < head.length then Incomplete
          else if |body| != head.length then Malformed
          else Complete(Response(head.status, head.headers, body))
  }

  /** The first marker is where it is, whatever follows. */
  lemma FindIs(raw: Bytes, m: nat)
    requires MarkerAt(raw, m) && forall j :: 0 <= j < m ==> !MarkerAt(raw, j)
    ensures Find(raw) == Some(m)
  {
    assert Find(raw).Some? ==> MarkerAt(raw, Find(raw).value);
  }

  lemma PrefixMarkers(raw: Bytes, k: nat, i: nat)
    requires k <= |raw|
    ensures MarkerAt(raw[..k], i) <==> i + 4 <= k && MarkerAt(raw, i)
  {
    if i + 4 <= k {
      assert raw[..k][i..i + 4] == raw[i..i + 4];
    }
  }

  /** What a prefix of a string with its first marker at `m` contains of it. */
  lemma FindInPrefix(raw: Bytes, m: nat, k: nat)
    requires Find(raw) == Some(m) && k <= |raw|
    ensures Find(raw[..k]) == if m + 4 <= k then Some(m) else None
  {
    forall i: nat ensures MarkerAt(raw[..k], i) <==> i + 4 <= k && MarkerAt(raw, i) {
      PrefixMarkers(raw, k, i);
    }
    if m + 4 <= k {
      FindIs(raw[..k], m);
    }
  }

  /** Exactly the strings that are a good header block of at most 16384 bytes, ended by its first blank
      line, and a body of just the announced length are accepted. */
  lemma AcceptedExactly(head: Bytes, body: Bytes)
    requires Find(head + MARKER + body) == Some(|head|)
    ensures Parse(head + MARKER + body).Complete? <==> |head| <= HEADER_LIMIT && HeadOf(head).Some? && HeadOf(head).value.length == |body|
    ensures Parse(head + MARKER + body).Complete? ==>
              Parse(head + MARKER + body).response == Response(HeadOf(head).value.status, HeadOf(head).value.headers, body)
  {
    var raw := head + MARKER + body;
    assert raw[..|head|] == head && raw[|head| + 4..] == body;
  }

  /** `raw` is accepted as `response`, and its header block ends at offset `m`. */
  predicate AcceptedAt(raw: Bytes, response: Response, m: nat) {
    Parse(raw) == Complete(response) && Find(raw) == Some(m)
  }

  /** AcceptedAt, kept folded. */
  ghost predicate Accepted(raw: Bytes, response: Response, m: nat) {
    forall x :: x == raw ==> AcceptedAt(x, response, m)
  }

  /** Every proper prefix of an accepted string: incomplete, unless it is longer than the header limit
      and still without its blank line. */
  lemma PrefixOutcome(raw: Bytes, k: nat)
    requires Parse(raw).Complete? && k < |raw|
    ensures Parse(raw[..k]) == if HEADER_LIMIT < k < Find(raw).value + 4 then Malformed else Incomplete
  {
    var m := Find(raw).value;
    FindInPrefix(raw, m, k);
    if m + 4 <= k {
      assert raw[..k][..m] == raw[..m];
    }
  }

  /** Every proper prefix of an accepted string is incomplete exactly when its header block ends at
      offset 16381 or before. */
  lemma PrefixesIncompleteExactly(raw: Bytes, response: Response, m: nat)
    requires Accepted(raw, response, m)
    ensures (forall k :: 0 <= k < |raw| ==> Parse(raw[..k]).Incomplete?) <==> m <= HEADER_LIMIT - 3
  {
    assert AcceptedAt(raw, response, m);
    forall k | 0 <= k < |raw| ensures Parse(raw[..k]) == if HEADER_LIMIT < k < m + 4 then Malformed else Incomplete {
      PrefixOutcome(raw, k);
    }
    if m > HEADER_LIMIT - 3 {
      assert !Parse(raw[..m + 3]).Incomplete?;
    }
  }

  /** Bytes after the announced body are refused when they arrive with it. */
  lemma TrailingBytesRefused(raw: Bytes, response: Response, m: nat, extra: Bytes)
    requires Accepted(raw, response, m) && extra != []
    ensures Parse(raw + extra) == Malformed
  {
    assert AcceptedAt(raw, response, m);
    var more := raw + extra;
    assert more[..|raw|] == raw;
    forall i: nat ensures MarkerAt(raw, i) <==> i + 4 <= |raw| && MarkerAt(more, i) {
      PrefixMarkers(more, |raw|, i);
    }
    FindIs(more, m);
    assert more[..m] == raw[..m];
  }

  // ---- The read loop ----

  datatype Outcome = Received(response: Response) | Failed | Starved

  /** Parse, then read the next chunk, until the parse decides. An empty chunk ends the stream. */
  function ReadWith(parse: Bytes -> Parsed, buffer: Bytes, chunks: seq<Bytes>): Outcome
    decreases |chunks|
  {
    match parse(buffer)
    case Complete(response) => Received(response)
    case Malformed => Failed
    case Incomplete =>
      if chunks == [] then Starved
      else if chunks[0] == [] then Failed
      else ReadWith(parse, buffer + chunks[0], chunks[1..])
  }

  function Read(chunks: seq<Bytes>): Outcome {
    ReadWith(Parse, [], chunks)
  }

  method ReadLoop(parse: Bytes -> Parsed, chunks: seq<Bytes>) returns (r: Outcome)
    ensures r == ReadWith(parse, [], chunks)
  {
    var plaintext: Bytes := [];
    var i := 0;
    while true
      invariant 0 <= i <= |chunks|
      invariant ReadWith(parse, [], chunks) == ReadWith(parse, plaintext, chunks[i..])
      decreases |chunks| - i
    {
      match parse(plaintext) {
        case Complete(response) => return Received(response);
        case Malformed => return Failed;
        case Incomplete =>
      }
      if i == |chunks| {
        return Starved;
      }
      if chunks[i] == [] {
        return Failed;
      }
      plaintext := plaintext + chunks[i];
      i := i + 1;
    }
  }

  method ReadHttpResponse(chunks: seq<Bytes>) returns (r: Outcome)
    ensures r == Read(chunks)
  {
    r := ReadLoop(Parse, chunks);
  }

  function Joined(chunks: seq<Bytes>): Bytes {
    if chunks == [] then [] else chunks[0] + Joined(chunks[1..])
  }

  predicate Sized(chunks: seq<Bytes>, limit: nat) {
    forall i :: 0 <= i < |chunks| ==> 0 < |chunks[i]| <= limit
  }

  /** Some boundary before one of the chunks lies strictly between `low` and `high`. */
  predicate Cuts(low: nat, high: nat, from: nat, chunks: seq<Bytes>)
    decreases |chunks|
  {
    chunks != [] && (low < from < high || Cuts(low, high, from + |chunks[0]|, chunks[1..]))
  }

  /** A parser that accepts `raw`, refuses its proper prefixes strictly between two lengths, and finds
      the others incomplete. */
  ghost predicate Behaves(parse: Bytes -> Parsed, raw: Bytes, response: Response, low: nat, high: nat) {
    && parse(raw) == Complete(response)
    && (forall k :: 0 <= k < |raw| ==> parse(raw[..k]) == if low < k < high then Malformed else Incomplete)
  }

  lemma ParseBehaves(raw: Bytes, response: Response, m: nat)
    requires Accepted(raw, response, m)
    ensures Behaves(Parse, raw, response, HEADER_LIMIT, m + 4)
  {
    assert AcceptedAt(raw, response, m);
    forall k | 0 <= k < |raw| ensures Parse(raw[..k]) == if HEADER_LIMIT < k < m + 4 then Malformed else Incomplete {
      PrefixOutcome(raw, k);
    }
  }

  lemma {:induction false} ReadWithExactly(parse: Bytes -> Parsed, raw: Bytes, response: Response, low: nat, high: nat, buffer: Bytes, chunks: seq<Bytes>)
    requires Behaves(parse, raw, response, low, high)
    requires buffer + Joined(chunks) == raw && forall i :: 0 <= i < |chunks| ==> chunks[i] != []
    ensures ReadWith(parse, buffer, chunks) == if Cuts(low, high, |buffer|, chunks) then Failed else Received(response)
    decreases |chunks|
  {
    if chunks == [] {
      assert buffer == raw;
    } else {
      assert |buffer| < |raw|;
      assert raw[..|buffer|] == buffer;
      assert buffer + chunks[0] + Joined(chunks[1..]) == raw;
      ReadWithExactly(parse, raw, response, low, high, buffer + chunks[0], chunks[1..]);
    }
  }

  /** How any chunking of an accepted string ends, exactly: refused if some chunk ends past the header
      limit but before the end of the blank line, and the one response otherwise. */
  lemma ReadExactly(raw: Bytes, response: Response, m: nat, chunks: seq<Bytes>, limit: nat)
    requires Accepted(raw, response, m) && Joined(chunks) == raw && Sized(chunks, limit)
    ensures Read(chunks) == if Cuts(HEADER_LIMIT, m + 4, 0, chunks) then Failed else Received(response)
  {
    ParseBehaves(raw, response, m);
    assert [] + Joined(chunks) == raw;
    ReadWithExactly(Parse, raw, response, HEADER_LIMIT, m + 4, [], chunks);
  }

  lemma {:induction false} NoCuts(low: nat, high: nat, from: nat, chunks: seq<Bytes>)
    requires high <= low + 1 || from >= high
    ensures !Cuts(low, high, from, chunks)
    decreases |chunks|
  {
    if chunks != [] {
      NoCuts(low, high, from + |chunks[0]|, chunks[1..]);
    }
  }

  /** An accepted string whose header block ends at offset 16381 or before gives the same response
      however it is chunked. */
  lemma ChunkingDoesNotMatter(raw: Bytes, response: Response, m: nat, chunks: seq<Bytes>, limit: nat)
    requires Accepted(raw, response, m) && m <= HEADER_LIMIT - 3
    requires Joined(chunks) == raw && Sized(chunks, limit)
    ensures Read(chunks) == Received(response)
  {
    NoCuts(HEADER_LIMIT, m + 4, 0, chunks);
    ReadExactly(raw, response, m, chunks, limit);
  }

  /** A string cut into pieces of `size` bytes, and what is left. */
  function Pieces(s: Bytes, size: nat): seq<Bytes>
    requires size > 0
    decreases |s|
  {
    if s == [] then [] else if |s| <= size then [s] else [s[..size]] + Pieces(s[size..], size)
  }

  lemma {:induction false} PiecesJoin(s: Bytes, size: nat)
    requires size > 0
    ensures Joined(Pieces(s, size)) == s && Sized(Pieces(s, size), size)
    decreases |s|
  {
    if |s| > size {
      PiecesJoin(s[size..], size);
      assert s == s[..size] + s[size..];
    } else if s != [] {
      assert Joined([s]) == s + [];
    }
  }

  lemma JoinTwo(a: Bytes, rest: seq<Bytes>)
    ensures Joined([a] + rest) == a + Joined(rest)
    ensures forall low: nat, high: nat, from: nat :: Cuts(low, high, from, [a] + rest) <==> low < from < high || Cuts(low, high, from + |a|, rest)
  {
    assert ([a] + rest)[1..] == rest;
  }

  lemma AcceptedBounds(raw: Bytes, response: Response, m: nat)
    requires Accepted(raw, response, m)
    ensures m <= HEADER_LIMIT && m + 4 <= |raw|
  {
    assert AcceptedAt(raw, response, m);
  }

  /** Reads of full chunks receive every accepted string. */
  lemma FullChunksReceive(raw: Bytes, response: Response, m: nat)
    requires Accepted(raw, response, m)
    ensures var good := Pieces(raw, CHUNK_LIMIT);
            Joined(good) == raw && Sized(good, CHUNK_LIMIT) && Read(good) == Received(response)
  {
    AcceptedBounds(raw, response, m);
    PiecesJoin(raw, CHUNK_LIMIT);
    FullChunksDoNotCut(raw, m + 4);
    ReadExactly(raw, response, m, Pieces(raw, CHUNK_LIMIT), CHUNK_LIMIT);
  }

  lemma FullChunksDoNotCut(raw: Bytes, high: nat)
    requires high <= |raw| && high <= HEADER_LIMIT + 4
    ensures !Cuts(HEADER_LIMIT, high, 0, Pieces(raw, CHUNK_LIMIT))
  {
    if |raw| > CHUNK_LIMIT {
      var rest := raw[CHUNK_LIMIT..];
      JoinTwo(raw[..CHUNK_LIMIT], Pieces(rest, CHUNK_LIMIT));
      if |rest| > CHUNK_LIMIT {
        JoinTwo(rest[..CHUNK_LIMIT], Pieces(rest[CHUNK_LIMIT..], CHUNK_LIMIT));
        NoCuts(HEADER_LIMIT, high, CHUNK_LIMIT + CHUNK_LIMIT, Pieces(rest[CHUNK_LIMIT..], CHUNK_LIMIT));
      } else {
        assert Pieces(rest, CHUNK_LIMIT) == [rest];
        NoCuts(HEADER_LIMIT, high, |raw|, []);
      }
    } else if raw != [] {
      NoCuts(HEADER_LIMIT, high, |raw|, []);
    }
  }

  /** A chunking that ends one chunk three bytes past the header block's end. */
  function Unlucky(raw: Bytes, m: nat): seq<Bytes>
    requires HEADER_LIMIT < m + 3 <= |raw|
  {
    [raw[..HEADER_LIMIT], raw[HEADER_LIMIT..m + 3]] + Pieces(raw[m + 3..], CHUNK_LIMIT)
  }

  lemma UnluckyJoins(raw: Bytes, m: nat)
    requires HEADER_LIMIT < m + 3 < |raw| && m <= HEADER_LIMIT
    ensures Joined(Unlucky(raw, m)) == raw && Sized(Unlucky(raw, m), CHUNK_LIMIT)
    ensures Cuts(HEADER_LIMIT, m + 4, 0, Unlucky(raw, m))
  {
    var first, second, rest := raw[..HEADER_LIMIT], raw[HEADER_LIMIT..m + 3], Pieces(raw[m + 3..], CHUNK_LIMIT);
    PiecesJoin(raw[m + 3..], CHUNK_LIMIT);
    JoinTwo(second, rest);
    JoinTwo(first, [second] + rest);
    assert Unlucky(raw, m) == [first] + ([second] + rest);
    assert first + (second + raw[m + 3..]) == raw;
    assert |first| == HEADER_LIMIT && 0 < |second| <= 3;
    assert rest != [];
    assert Cuts(HEADER_LIMIT, m + 4, m + 3, rest);
  }

  /** At offsets 16382 to 16384 chunking does matter: full chunks receive the response, and another
      chunking of the same bytes is refused. */
  lemma ChunkingMattersPast16381(raw: Bytes, response: Response, m: nat)
    requires Accepted(raw, response, m) && m > HEADER_LIMIT - 3
    ensures HEADER_LIMIT < m + 3 < |raw|
    ensures Joined(Unlucky(raw, m)) == raw && Sized(Unlucky(raw, m), CHUNK_LIMIT) && Read(Unlucky(raw, m)) == Failed
    ensures Read(Pieces(raw, CHUNK_LIMIT)) == Received(response)
  {
    AcceptedBounds(raw, response, m);
    FullChunksReceive(raw, response, m);
    UnluckyJoins(raw, m);
    ReadExactly(raw, response, m, Unlucky(raw, m), CHUNK_LIMIT);
  }

  // ---- Header blocks that end at offset 16382, 16383 and 16384 ----

  const BREAK: Bytes := [CR, LF]
  const OK_LINE: Bytes := HTTP_1_1 + [SPACE, 50, 48, 48, SPACE]
  const NO_BODY: Bytes := CONTENT_LENGTH + [COLON, ZERO]

  /** One field of which the name is "x" and the value is as many letters as it takes. */
  function Filler(n: nat): Bytes {
    [120, COLON] + seq(n, _ => 97)
  }

  /** A status line, an empty body announced, and a filler that makes it `m` bytes. */
  function Padded(m: nat): Bytes
    requires m >= 35
  {
    OK_LINE + BREAK + NO_BODY + BREAK + Filler(m - 35)
  }

  predicate OneLine(s: Bytes) {
    s != [] && forall i :: 0 <= i < |s| ==> s[i] != CR
  }

  lemma {:induction false} LineEndIs(s: Bytes, i: nat, end: nat)
    requires i <= end <= |s| && (end == |s| || BreakAt(s, end))
    requires forall j :: i <= j < end ==> s[j] != CR
    ensures LineEnd(s, i) == end
    decreases end - i
  {
    if i < end {
      LineEndIs(s, i + 1, end);
    }
  }

  lemma LinesAre(first: Bytes, rest: Bytes)
    requires OneLine(first)
    ensures Lines(first) == [first]
    ensures Lines(first + BREAK + rest) == [first] + Lines(rest)
  {
    LineEndIs(first, 0, |first|);
    var s := first + BREAK + rest;
    LineEndIs(s, 0, |first|);
    assert s[..|first|] == first && s[|first| + 2..] == rest;
  }

  lemma {:induction false} IndexIs(s: Bytes, b: Byte, i: nat)
    requires i < |s| && s[i] == b && forall j :: 0 <= j < i ==> s[j] != b
    ensures IndexOf(s, b) == Some(i)
    decreases i
  {
    if i > 0 {
      IndexIs(s[1..], b, i - 1);
    }
  }

  lemma {:induction false} LowerIs(s: Bytes)
    requires forall i :: 0 <= i < |s| ==> LowerByte(s[i]) == s[i]
    ensures Lower(s) == s
  {
    if s != [] {
      LowerIs(s[1..]);
    }
  }

  lemma StripIs(s: Bytes)
    requires s != [] && !IsSpace(s[0]) && !IsSpace(s[|s| - 1])
    ensures Strip(s) == s
  {
  }

  lemma {:induction false} DigitsOf(s: Bytes)
    requires forall i :: 0 <= i < |s| ==> IsDigit(s[i])
    ensures Digits(s) == s
  {
    if s != [] {
      DigitsOf(s[..|s| - 1]);
    }
  }

  lemma IntOfDigits(s: Bytes)
    requires 0 < |s| <= INT_DIGITS && forall i :: 0 <= i < |s| ==> IsDigit(s[i])
    ensures ToInt(s) == Some(Decimal(s))
  {
    StripIs(s);
    DigitsOf(s);
  }

  lemma IntIs200(s: Bytes)
    requires |s| == 3 && s[0] == 50 && s[1] == 48 && s[2] == 48
    ensures ToInt(s) == Some(200)
  {
    IntOfDigits(s);
    var t := s[..2];
    var u := t[..1];
    assert u[..0] == [];
    assert Decimal(u) == 2;
    assert Decimal(t) == 20;
  }

  lemma IntIs0(s: Bytes)
    requires |s| == 1 && s[0] == ZERO
    ensures ToInt(s) == Some(0)
  {
    IntOfDigits(s);
  }

  lemma StatusLineParses(version: Bytes, code: Bytes)
    requires version == HTTP_1_1 && SPACE !in version && SPACE !in code
    requires ToInt(code).Some? && 100 <= ToInt(code).value < 600
    ensures StatusOf(version + [SPACE] + code + [SPACE]) == ToInt(code)
  {
    var line := version + [SPACE] + code + [SPACE];
    IndexIs(line, SPACE, |version|);
    assert line[..|version|] == version;
    var rest := line[|version| + 1..];
    assert rest == code + [SPACE];
    IndexIs(rest, SPACE, |code|);
    assert rest[..|code|] == code;
  }

  lemma FieldParses(name: Bytes, value: Bytes)
    requires name != [] && COLON !in name && Strip(name) == name && Lower(name) == name
    ensures FieldOf(name + [COLON] + value) == Some((name, Strip(value)))
  {
    var line := name + [COLON] + value;
    IndexIs(line, COLON, |name|);
    assert line[..|name|] == name && line[|name| + 1..] == value;
  }

  predicate LowerToken(s: Bytes) {
    s != [] && forall i :: 0 <= i < |s| ==> s[i] == 45 || 97 <= s[i] <= 122
  }

  lemma TokenFieldParses(name: Bytes, value: Bytes)
    requires LowerToken(name) && |value| == 1 && value[0] == ZERO
    ensures FieldOf(name + [COLON] + value) == Some((name, value))
  {
    StripIs(name);
    LowerIs(name);
    StripIs(value);
    FieldParses(name, value);
  }

  function Letters(n: nat): Bytes {
    seq(n, _ => 97)
  }

  lemma FillerParses(n: nat)
    ensures OneLine(Filler(n)) && FieldOf(Filler(n)) == Some(([120], Strip(Letters(n))))
  {
    StripIs([120]);
    LowerIs([120]);
    FieldParses([120], Letters(n));
    assert Filler(n) == [120] + [COLON] + Letters(n);
  }

  lemma TwoFields(a: Bytes, b: Bytes, first: (Bytes, Bytes), second: (Bytes, Bytes))
    requires FieldOf(a) == Some(first) && FieldOf(b) == Some(second) && first.0 != second.0
    ensures Fields([a, b]) == Some(map[first.0 := first.1, second.0 := second.1])
  {
    assert [a, b][..1] == [a] && [a][..0] == [];
    assert Fields([a]) == Some(map[first.0 := first.1]);
  }

  lemma EmptyBodyAnnounced(name: Bytes, key: Bytes, zero: Bytes, value: Bytes)
    requires |zero| == 1 && zero[0] == ZERO && name == CONTENT_LENGTH && |key| == 1
    ensures |name| == 14 && LengthOf(map[name := zero, key := value]) == Some(0)
  {
    IntIs0(zero);
    assert |TRANSFER_ENCODING| == 17 && |CONTENT_ENCODING| == 16 && |CONTENT_LENGTH| == 14;
  }

  lemma TwoLines(b: Bytes, c: Bytes)
    requires OneLine(b) && OneLine(c)
    ensures Lines(b + BREAK + c) == [b, c]
  {
    LinesAre(c, []);
    LinesAre(b, c);
    assert [b] + [c] == [b, c];
  }

  lemma BreakAssociates(a: Bytes, b: Bytes, c: Bytes)
    ensures a + BREAK + b + BREAK + c == a + BREAK + (b + BREAK + c)
  {
    var left, mid := a + BREAK, b + BREAK;
    assert left + b + BREAK == left + mid;
    assert left + mid + c == left + (mid + c);
  }

  lemma ThreeLines(a: Bytes, b: Bytes, c: Bytes)
    requires OneLine(a) && OneLine(b) && OneLine(c)
    ensures Lines(a + BREAK + b + BREAK + c) == [a, b, c]
  {
    var rest := b + BREAK + c;
    TwoLines(b, c);
    LinesAre(a, rest);
    BreakAssociates(a, b, c);
    assert [a] + [b, c] == [a, b, c];
  }

  lemma HeadParses(text: Bytes, a: Bytes, b: Bytes, c: Bytes, name: Bytes, zero: Bytes, key: Bytes, value: Bytes)
    requires Lines(text) == [a, b, c] && StatusOf(a) == Some(200)
    requires FieldOf(b) == Some((name, zero)) && FieldOf(c) == Some((key, value))
    requires name == CONTENT_LENGTH && |zero| == 1 && zero[0] == ZERO && |key| == 1
    ensures HeadOf(text) == Some(Head(200, map[name := zero, key := value], 0))
  {
    assert [a, b, c][1..] == [b, c];
    EmptyBodyAnnounced(name, key, zero, value);
    TwoFields(b, c, (name, zero), (key, value));
  }

  function LateHeaders(m: nat): map<Bytes, Bytes>
    requires m >= 35
  {
    map[CONTENT_LENGTH := [ZERO], [120] := Strip(Letters(m - 35))]
  }

  lemma NotMarkerAt(raw: Bytes, j: nat)
    requires j + 2 < |raw| ==> raw[j] != CR || raw[j + 2] != CR
    ensures !MarkerAt(raw, j)
  {
    if j + 4 <= |raw| {
      assert raw[j..j + 4][0] == raw[j] && raw[j..j + 4][2] == raw[j + 2];
    }
  }

  /** Three lines that are not empty hold no blank line before the one that ends them. */
  lemma FirstMarkerIsLast(a: Bytes, b: Bytes, c: Bytes)
    requires OneLine(a) && OneLine(b) && OneLine(c)
    ensures var head := a + BREAK + b + BREAK + c; Find(head + MARKER) == Some(|head|)
  {
    var head := a + BREAK + b + BREAK + c;
    var raw := head + MARKER;
    assert raw[|head|..|head| + 4] == MARKER;
    forall j: nat | j < |head| ensures !MarkerAt(raw, j) {
      NotMarkerAt(raw, j);
    }
    FindIs(raw, |head|);
  }

  lemma PaddedLines(m: nat)
    requires m >= 35
    ensures |Padded(m)| == m && OneLine(OK_LINE) && OneLine(NO_BODY) && OneLine(Filler(m - 35))
    ensures Lines(Padded(m)) == [OK_LINE, NO_BODY, Filler(m - 35)]
  {
    ThreeLines(OK_LINE, NO_BODY, Filler(m - 35));
  }

  lemma ConstantsArePlain()
    ensures SPACE !in HTTP_1_1 && LowerToken(CONTENT_LENGTH)
  {
  }

  lemma PaddedHead(m: nat, version: Bytes, code: Bytes, name: Bytes, zero: Bytes)
    requires m >= 35 && version == HTTP_1_1 && |code| == 3 && code[0] == 50 && code[1] == 48 && code[2] == 48
    requires OK_LINE == version + [SPACE] + code + [SPACE] && NO_BODY == name + [COLON] + zero
    requires SPACE !in version && LowerToken(name) && name == CONTENT_LENGTH && |zero| == 1 && zero[0] == ZERO
    ensures HeadOf(Padded(m)) == Some(Head(200, map[name := zero, [120] := Strip(Letters(m - 35))], 0))
  {
    PaddedLines(m);
    IntIs200(code);
    StatusLineParses(version, code);
    TokenFieldParses(name, zero);
    FillerParses(m - 35);
    HeadParses(Padded(m), OK_LINE, NO_BODY, Filler(m - 35), name, zero, [120], Strip(Letters(m - 35)));
  }

  lemma PaddedParses(m: nat)
    requires 35 <= m <= HEADER_LIMIT
    ensures |Padded(m)| == m && AcceptedAt(Padded(m) + MARKER, Response(200, LateHeaders(m), []), m)
  {
    PaddedLines(m);
    ConstantsArePlain();
    PaddedHead(m, HTTP_1_1, [50, 48, 48], CONTENT_LENGTH, [ZERO]);
    FirstMarkerIsLast(OK_LINE, NO_BODY, Filler(m - 35));
    assert Padded(m) + MARKER == Padded(m) + MARKER + [];
    AcceptedExactly(Padded(m), []);
  }

  /** Each of those offsets is reached: this header block of `m` bytes is accepted, by reads of full chunks
      and not by another chunking of the same bytes. */
  lemma LateHeadersAreAccepted(m: nat)
    requires HEADER_LIMIT - 3 < m <= HEADER_LIMIT
    ensures var raw := Padded(m) + MARKER;
            var response := Response(200, LateHeaders(m), []);
            && Accepted(raw, response, m) && |raw| == m + 4
            && Joined(Unlucky(raw, m)) == raw && Sized(Unlucky(raw, m), CHUNK_LIMIT) && Read(Unlucky(raw, m)) == Failed
            && Read(Pieces(raw, CHUNK_LIMIT)) == Received(response)
  {
    PaddedParses(m);
    ChunkingMattersPast16381(Padded(m) + MARKER, Response(200, LateHeaders(m), []), m);
  }
}
