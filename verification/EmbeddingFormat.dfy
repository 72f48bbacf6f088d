/** The binary face-template format: a header and up to ten 512-value float32 vectors. A float32 is
    its 32-bit word. */
module EmbeddingFormat {
  import opened Outcomes
  import BleProtocol

  type Byte = BleProtocol.Byte
  type Bytes = BleProtocol.Bytes

  const DIMENSION: nat := 512
  const MAX_EMBEDDINGS: nat := 10
  const HEADER_SIZE: nat := 12
  const MAGIC: Bytes := [66, 65, 83, 83, 70, 48, 48, 49]

  type Word = w: int | 0 <= w < 0x1_0000_0000
  type Vector = seq<Word>

  /** Neither infinite nor NaN: the exponent is not all ones. */
  predicate Finite(w: Word) {
    (w / 0x80_0000) % 256 != 255
  }

  /** Zero of either sign. */
  predicate Zero(w: Word) {
    w % 0x8000_0000 == 0
  }

  predicate ValidVector(v: Vector) {
    && |v| == DIMENSION
    && (forall i :: 0 <= i < |v| ==> Finite(v[i]))
    && (exists i :: 0 <= i < |v| && !Zero(v[i]))
  }

  predicate ValidCollection(vs: seq<Vector>) {
    1 <= |vs| <= MAX_EMBEDDINGS && forall i :: 0 <= i < |vs| ==> ValidVector(vs[i])
  }

  datatype Error = InvalidCollection | MigrationRequired | InvalidCount | InvalidDimension | InvalidLength

  // ---- Bytes ----

  /** Two bytes, the low one first. */
  function Half(n: nat): Bytes
    requires n < 0x1_0000
  {
    [n % 256, n / 256]
  }

  function Short(low: int, high: int): int {
    low + 256 * high
  }

  lemma HalfRoundTrip(n: nat)
    requires n < 0x1_0000
    ensures Short(Half(n)[0], Half(n)[1]) == n
  {
  }

  lemma ShortRoundTrip(low: Byte, high: Byte)
    ensures 0 <= Short(low, high) < 0x1_0000
    ensures Half(Short(low, high)) == [low, high]
  {
  }

  function WordBytes(w: Word): Bytes {
    Half(w % 0x1_0000) + Half(w / 0x1_0000)
  }

  function WordOf(b: Bytes): Word
    requires |b| == 4
  {
    ShortRoundTrip(b[0], b[1]);
    ShortRoundTrip(b[2], b[3]);
    Wide(Short(b[0], b[1]), Short(b[2], b[3]))
  }

  function Wide(low: int, high: int): Word
    requires 0 <= low < 0x1_0000 && 0 <= high < 0x1_0000
  {
    low + 0x1_0000 * high
  }

  lemma WideRoundTrip(w: Word, low: int, high: int)
    requires 0 <= low < 0x1_0000 && 0 <= high < 0x1_0000
    ensures Wide(w % 0x1_0000, w / 0x1_0000) == w
    ensures Wide(low, high) % 0x1_0000 == low && Wide(low, high) / 0x1_0000 == high
  {
  }

  lemma WordOfBytes(w: Word)
    ensures WordOf(WordBytes(w)) == w
  {
    var low, high := w % 0x1_0000, w / 0x1_0000;
    HalfRoundTrip(low);
    HalfRoundTrip(high);
    WideRoundTrip(w, low, high);
    var b := WordBytes(w);
    assert b[0] == Half(low)[0] && b[1] == Half(low)[1] && b[2] == Half(high)[0] && b[3] == Half(high)[1];
  }

  lemma BytesOfHalves(w: Word, low: nat, high: nat)
    requires low < 0x1_0000 && high < 0x1_0000 && w == Wide(low, high)
    ensures WordBytes(w) == Half(low) + Half(high)
  {
    WideRoundTrip(w, low, high);
  }

  lemma BytesOfWord(b: Bytes)
    requires |b| == 4
    ensures WordBytes(WordOf(b)) == b
  {
    var low, high := Short(b[0], b[1]), Short(b[2], b[3]);
    ShortRoundTrip(b[0], b[1]);
    ShortRoundTrip(b[2], b[3]);
    var first, second := Half(low), Half(high);
    BytesOfHalves(WordOf(b), low, high);
    assert b == [b[0], b[1]] + [b[2], b[3]];
  }

  function Flat(words: seq<Word>): Bytes {
    if words == [] then [] else WordBytes(words[0]) + Flat(words[1..])
  }

  function Words(b: Bytes): seq<Word>
    requires |b| % 4 == 0
  {
    if b == [] then [] else [WordOf(b[..4])] + Words(b[4..])
  }

  lemma {:induction false} FlatWords(words: seq<Word>)
    ensures |Flat(words)| == 4 * |words| && |Flat(words)| % 4 == 0
    ensures Words(Flat(words)) == words
  {
    if words != [] {
      FlatWords(words[1..]);
      WordOfBytes(words[0]);
      var b := Flat(words);
      assert b[..4] == WordBytes(words[0]) && b[4..] == Flat(words[1..]);
    }
  }

  lemma {:induction false} WordsFlat(b: Bytes)
    requires |b| % 4 == 0
    ensures 4 * |Words(b)| == |b|
    ensures Flat(Words(b)) == b
  {
    if b != [] {
      WordsFlat(b[4..]);
      BytesOfWord(b[..4]);
      assert b == b[..4] + b[4..];
    }
  }

  // ---- Rows ----

  function Joined(vs: seq<Vector>): seq<Word> {
    if vs == [] then [] else vs[0] + Joined(vs[1..])
  }

  function Rows(words: seq<Word>, count: nat, dimension: nat): seq<Vector>
    requires |words| == count * dimension
  {
    if count == 0 then []
    else
      assert count * dimension == dimension + (count - 1) * dimension;
      [words[..dimension]] + Rows(words[dimension..], count - 1, dimension)
  }

  predicate Rectangular(vs: seq<Vector>, dimension: nat) {
    forall i :: 0 <= i < |vs| ==> |vs[i]| == dimension
  }

  lemma {:induction false} RowsOfJoined(vs: seq<Vector>, dimension: nat)
    requires Rectangular(vs, dimension)
    ensures |Joined(vs)| == |vs| * dimension && Rows(Joined(vs), |vs|, dimension) == vs
  {
    if vs != [] {
      RowsOfJoined(vs[1..], dimension);
      assert |vs| * dimension == dimension + (|vs| - 1) * dimension;
      var words := Joined(vs);
      assert words[..dimension] == vs[0] && words[dimension..] == Joined(vs[1..]);
    }
  }

  lemma {:induction false} JoinedRows(words: seq<Word>, count: nat, dimension: nat)
    requires |words| == count * dimension
    ensures |Rows(words, count, dimension)| == count && Rectangular(Rows(words, count, dimension), dimension)
    ensures Joined(Rows(words, count, dimension)) == words
  {
    if count > 0 {
      assert count * dimension == dimension + (count - 1) * dimension;
      JoinedRows(words[dimension..], count - 1, dimension);
      assert words == words[..dimension] + words[dimension..];
    }
  }

  // ---- The format ----

  function Header(count: nat, dimension: nat): Bytes
    requires count < 0x1_0000 && dimension < 0x1_0000
  {
    MAGIC + Half(count) + Half(dimension)
  }

  function Encode(vs: seq<Vector>): Result<Bytes, Error> {
    if !ValidCollection(vs) then Failure(InvalidCollection)
    else Success(Header(|vs|, DIMENSION) + Flat(Joined(vs)))
  }

  function Decode(blob: Bytes): Result<seq<Vector>, Error> {
    if |blob| < HEADER_SIZE || blob[..8] != MAGIC then Failure(MigrationRequired)
    else
      var count := Short(blob[8], blob[9]);
      var dimension := Short(blob[10], blob[11]);
      var payload := blob[HEADER_SIZE..];
      if !(1 <= count <= MAX_EMBEDDINGS) then Failure(InvalidCount)
      else if dimension != DIMENSION then Failure(InvalidDimension)
      else if |payload| != count * dimension * 4 then Failure(InvalidLength)
      else
        WordsFlat(payload);
        var vs := Rows(Words(payload), count, dimension);
        if ValidCollection(vs) then Success(vs) else Failure(InvalidCollection)
  }

  lemma HeaderReads(count: nat, dimension: nat, payload: Bytes)
    requires count < 0x1_0000 && dimension < 0x1_0000
    ensures var blob := Header(count, dimension) + payload;
            && |blob| == HEADER_SIZE + |payload| && blob[..8] == MAGIC && blob[HEADER_SIZE..] == payload
            && Short(blob[8], blob[9]) == count && Short(blob[10], blob[11]) == dimension
  {
    HalfRoundTrip(count);
    HalfRoundTrip(dimension);
    var blob := Header(count, dimension) + payload;
    assert blob[8] == Half(count)[0] && blob[9] == Half(count)[1];
    assert blob[10] == Half(dimension)[0] && blob[11] == Half(dimension)[1];
  }

  /** `payload` holds the rows of `vs`. */
  predicate HoldsRows(vs: seq<Vector>, payload: Bytes) {
    && |payload| % 4 == 0 && |payload| == 2048 * |vs|
    && |Words(payload)| == |vs| * DIMENSION
    && Rows(Words(payload), |vs|, DIMENSION) == vs
  }

  /** HoldsRows, kept folded. */
  ghost predicate Carries(vs: seq<Vector>, payload: Bytes) {
    forall p :: p == payload ==> HoldsRows(vs, p)
  }

  lemma PayloadCarries(vs: seq<Vector>)
    requires Rectangular(vs, DIMENSION)
    ensures Carries(vs, Flat(Joined(vs)))
  {
    RowsOfJoined(vs, DIMENSION);
    FlatWords(Joined(vs));
    assert HoldsRows(vs, Flat(Joined(vs)));
  }

  lemma DecodeOfParts(vs: seq<Vector>, payload: Bytes)
    requires ValidCollection(vs) && Carries(vs, payload)
    ensures Decode(Header(|vs|, DIMENSION) + payload) == Success(vs)
    ensures |Header(|vs|, DIMENSION) + payload| == HEADER_SIZE + 2048 * |vs|
  {
    assert HoldsRows(vs, payload);
    HeaderReads(|vs|, DIMENSION, payload);
  }

  /** Every valid collection survives storage. */
  lemma DecodeInvertsEncode(vs: seq<Vector>)
    requires ValidCollection(vs)
    ensures Encode(vs).Success? && Decode(Encode(vs).value) == Success(vs)
    ensures |Encode(vs).value| == HEADER_SIZE + 2048 * |vs|
  {
    PayloadCarries(vs);
    DecodeOfParts(vs, Flat(Joined(vs)));
  }

  lemma HeaderSplits(blob: Bytes)
    requires |blob| >= HEADER_SIZE && blob[..8] == MAGIC
    ensures 0 <= Short(blob[8], blob[9]) < 0x1_0000 && 0 <= Short(blob[10], blob[11]) < 0x1_0000
    ensures blob == Header(Short(blob[8], blob[9]), Short(blob[10], blob[11])) + blob[HEADER_SIZE..]
  {
    ShortRoundTrip(blob[8], blob[9]);
    ShortRoundTrip(blob[10], blob[11]);
    assert blob == blob[..8] + [blob[8], blob[9]] + [blob[10], blob[11]] + blob[HEADER_SIZE..];
  }

  /** Every accepted blob is the encoding of what it decodes to, and has just the length of that. */
  lemma EncodeInvertsDecode(blob: Bytes)
    requires Decode(blob).Success?
    ensures ValidCollection(Decode(blob).value)
    ensures Encode(Decode(blob).value) == Success(blob)
    ensures |blob| == HEADER_SIZE + 2048 * |Decode(blob).value|
  {
    var payload := blob[HEADER_SIZE..];
    var count := Short(blob[8], blob[9]);
    WordsFlat(payload);
    JoinedRows(Words(payload), count, DIMENSION);
    HeaderSplits(blob);
  }

  /** Encoding is a bijection between valid collections and accepted blobs. */
  lemma EncodingIsBijective(vs: seq<Vector>, ws: seq<Vector>, blob: Bytes)
    requires ValidCollection(vs) && ValidCollection(ws)
    ensures Encode(vs) == Encode(ws) <==> vs == ws
    ensures Decode(blob).Success? <==> exists us :: ValidCollection(us) && Encode(us) == Success(blob)
  {
    DecodeInvertsEncode(vs);
    DecodeInvertsEncode(ws);
    if Decode(blob).Success? {
      EncodeInvertsDecode(blob);
    }
    forall us | ValidCollection(us) && Encode(us) == Success(blob) ensures Decode(blob).Success? {
      DecodeInvertsEncode(us);
    }
  }

  // ---- The loops ----

  /** Check the samples one by one. */
  method ValidateEmbeddings(vs: seq<Vector>) returns (r: Result<seq<Vector>, Error>)
    ensures r == if ValidCollection(vs) then Success(vs) else Failure(InvalidCollection)
  {
    if vs == [] || |vs| > MAX_EMBEDDINGS {
      return Failure(InvalidCollection);
    }
    var validated: seq<Vector> := [];
    for i := 0 to |vs|
      invariant validated == vs[..i]
      invariant forall k :: 0 <= k < i ==> ValidVector(vs[k])
    {
      if !ValidVector(vs[i]) {
        return Failure(InvalidCollection);
      }
      validated := validated + [vs[i]];
    }
    assert validated == vs;
    return Success(validated);
  }

  lemma Associates(x: Bytes, y: Bytes, z: Bytes)
    ensures (x + y) + z == x + (y + z)
  {
  }

  lemma {:induction false} FlatAppend(a: seq<Word>, b: seq<Word>)
    ensures Flat(a + b) == Flat(a) + Flat(b)
  {
    if a == [] {
      assert a + b == b;
    } else {
      FlatAppend(a[1..], b);
      assert (a + b)[1..] == a[1..] + b && (a + b)[0] == a[0];
      Associates(WordBytes(a[0]), Flat(a[1..]), Flat(b));
    }
  }

  lemma {:induction false} JoinedAppend(vs: seq<Vector>, v: Vector)
    ensures Joined(vs + [v]) == Joined(vs) + v
  {
    if vs == [] {
      assert Joined([v]) == v + [];
    } else {
      JoinedAppend(vs[1..], v);
      assert (vs + [v])[1..] == vs[1..] + [v];
    }
  }

  method EncodeEmbeddings(vs: seq<Vector>) returns (r: Result<Bytes, Error>)
    ensures r == Encode(vs)
  {
    var validated := ValidateEmbeddings(vs);
    if validated.Failure? {
      return Failure(InvalidCollection);
    }
    var payload: Bytes := [];
    for i := 0 to |vs|
      invariant payload == Flat(Joined(vs[..i]))
    {
      assert vs[..i + 1] == vs[..i] + [vs[i]];
      JoinedAppend(vs[..i], vs[i]);
      FlatAppend(Joined(vs[..i]), vs[i]);
      payload := payload + Flat(vs[i]);
    }
    assert vs[..|vs|] == vs;
    return Success(Header(|vs|, DIMENSION) + payload);
  }
}
