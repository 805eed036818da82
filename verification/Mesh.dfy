/** The compact binary form of a mesh. */
module Mesh {
  import opened Wrappers

  type Byte = b: int | 0 <= b < 256

  /** The four bytes of a 32-bit float, the most significant first. */
  datatype Word = Word(a: Byte, b: Byte, c: Byte, d: Byte)
  datatype Corner = Corner(position: int, uv: int, normal: int)
  datatype Model = Model(positions: seq<Word>, uvs: seq<Word>, normals: seq<Word>, corners: seq<Corner>)

  // ---- The binary form ----

  const TWO_32 := 0x1_0000_0000
  const TWO_31 := 0x8000_0000

  predicate Fits(v: int) { -TWO_31 <= v < TWO_31 }

  function IntBytes(v: int): (r: seq<Byte>)
    requires Fits(v)
    ensures |r| == 4
  {
    var u := v % TWO_32;
    [u / 0x100_0000, u / 0x1_0000 % 0x100, u / 0x100 % 0x100, u % 0x100]
  }

  function IntOf(a: Byte, b: Byte, c: Byte, d: Byte): int {
    var u := ((a * 0x100 + b) * 0x100 + c) * 0x100 + d;
    if u < TWO_31 then u else u - TWO_32
  }

  lemma IntReadsBack(v: int)
    requires Fits(v)
    ensures var r := IntBytes(v); IntOf(r[0], r[1], r[2], r[3]) == v
  {
    DigitsOf(v % TWO_32);
  }

  lemma DigitsOf(u: nat)
    ensures ((u / 0x100_0000 * 0x100 + u / 0x1_0000 % 0x100) * 0x100 + u / 0x100 % 0x100) * 0x100 + u % 0x100 == u
  {
    var a, b, c := u / 0x100, u / 0x1_0000, u / 0x100_0000;
    DividedTwice(u);
    DividedTwice(a);
    assert u == a * 0x100 + u % 0x100;
    assert a == b * 0x100 + a % 0x100;
    assert b == c * 0x100 + b % 0x100;
  }

  lemma DividedTwice(u: nat)
    ensures u / 0x1_0000 == u / 0x100 / 0x100 && u / 0x100_0000 == u / 0x1_0000 / 0x100
  {}

  lemma IntWritesBack(a: Byte, b: Byte, c: Byte, d: Byte)
    ensures Fits(IntOf(a, b, c, d)) && IntBytes(IntOf(a, b, c, d)) == [a, b, c, d]
  {
    var u := ((a * 0x100 + b) * 0x100 + c) * 0x100 + d;
    var v := IntOf(a, b, c, d);
    assert v % TWO_32 == u;
    assert u % 0x100 == d && u / 0x100 == (a * 0x100 + b) * 0x100 + c;
    assert u / 0x1_0000 == a * 0x100 + b && u / 0x100_0000 == a;
  }

  function WordBytes(w: Word): seq<Byte> { [w.a, w.b, w.c, w.d] }

  function WordsBytes(words: seq<Word>): (r: seq<Byte>)
    ensures |r| == 4 * |words|
  {
    if words == [] then []
    else
      var w := words[|words| - 1];
      WordsBytes(words[..|words| - 1]) + WordBytes(w)
  }

  predicate CornerFits(c: Corner) { Fits(c.position) && Fits(c.uv) && Fits(c.normal) }

  function CornersBytes(corners: seq<Corner>): (r: seq<Byte>)
    requires forall c :: c in corners ==> CornerFits(c)
    ensures |r| == 12 * |corners|
  {
    if corners == [] then []
    else
      var c := corners[|corners| - 1];
      assert CornerFits(corners[|corners| - 1]);
      CornersBytes(corners[..|corners| - 1]) + IntBytes(c.position) + IntBytes(c.uv) + IntBytes(c.normal)
  }

  predicate Writable(m: Model) {
    && Fits(|m.positions|) && Fits(|m.uvs|) && Fits(|m.normals|) && Fits(|m.corners|)
    && forall c :: c in m.corners ==> CornerFits(c)
  }

  function Section(words: seq<Word>): (r: seq<Byte>)
    requires Fits(|words|)
    ensures |r| == 4 + 4 * |words|
  {
    IntBytes(|words|) + WordsBytes(words)
  }

  function CornerSection(corners: seq<Corner>): (r: seq<Byte>)
    requires Fits(|corners|) && forall c :: c in corners ==> CornerFits(c)
    ensures |r| == 4 + 12 * |corners|
  {
    IntBytes(|corners|) + CornersBytes(corners)
  }

  /** The binary form, unless a count or an index is too large for it. */
  function Write(m: Model): Option<seq<Byte>> {
    if Writable(m)
    then Some(Section(m.positions) + Section(m.uvs) + Section(m.normals) + CornerSection(m.corners)) else None
  }

  // ---- Reading it at an offset ----

  function IntAt(data: seq<Byte>, o: nat): Option<int> {
    if o + 4 <= |data| then Some(IntOf(data[o], data[o + 1], data[o + 2], data[o + 3])) else None
  }

  function WordAt(data: seq<Byte>, o: nat): Word
    requires o + 4 <= |data|
  {
    Word(data[o], data[o + 1], data[o + 2], data[o + 3])
  }

  function WordsAt(data: seq<Byte>, o: nat, count: int): Option<seq<Word>> {
    if count < 0 || o + 4 * count > |data| then None
    else Some(seq(count, i requires 0 <= i < count => WordAt(data, o + 4 * i)))
  }

  function CornerAt(data: seq<Byte>, o: nat): Corner
    requires o + 12 <= |data|
  {
    Corner(IntAt(data, o).value, IntAt(data, o + 4).value, IntAt(data, o + 8).value)
  }

  /** A count and that many floats. */
  function SectionAt(data: seq<Byte>, o: nat): Option<seq<Word>> {
    match IntAt(data, o)
    case None => None
    case Some(count) => WordsAt(data, o + 4, count)
  }

  /** The corners, which must reach exactly to the end. */
  function CornersAt(data: seq<Byte>, o: nat): Option<seq<Corner>> {
    match IntAt(data, o)
    case None => None
    case Some(count) =>
      if count < 0 || o + 4 + 12 * count != |data| then None
      else Some(seq(count, i requires 0 <= i < count => CornerAt(data, o + 4 + 12 * i)))
  }

  function Read(data: seq<Byte>): Option<Model> {
    var positions :- SectionAt(data, 0);
    var o1 := 4 + 4 * |positions|;
    var uvs :- SectionAt(data, o1);
    var o2 := o1 + 4 + 4 * |uvs|;
    var normals :- SectionAt(data, o2);
    var corners :- CornersAt(data, o2 + 4 + 4 * |normals|);
    Some(Model(positions, uvs, normals, corners))
  }

  lemma {:induction false} WordBytesAt(words: seq<Word>, i: nat)
    requires i < |words|
    ensures WordsBytes(words)[4 * i..4 * i + 4] == WordBytes(words[i])
  {
    var init := words[..|words| - 1];
    if i < |init| {
      WordBytesAt(init, i);
      assert WordsBytes(words)[4 * i..4 * i + 4] == WordsBytes(init)[4 * i..4 * i + 4];
    }
  }

  lemma WordAtIs(data: seq<Byte>, o: nat, w: Word)
    requires o + 4 <= |data|
    ensures WordAt(data, o) == w <==> data[o..o + 4] == WordBytes(w)
  {
    assert data[o..o + 4] == WordBytes(WordAt(data, o));
    assert WordBytes(w)[0] == w.a && WordBytes(w)[1] == w.b && WordBytes(w)[2] == w.c && WordBytes(w)[3] == w.d;
  }

  lemma Cut(data: seq<Byte>, from: nat, at: nat, to: nat)
    requires from <= at <= to <= |data|
    ensures data[from..to] == data[from..at] + data[at..to]
  {}

  lemma {:induction false} WordsBytesUnique(data: seq<Byte>, o: nat, words: seq<Word>)
    requires o + 4 * |words| <= |data| && forall i :: 0 <= i < |words| ==> words[i] == WordAt(data, o + 4 * i)
    ensures data[o..o + 4 * |words|] == WordsBytes(words)
  {
    if words == [] {
      assert data[o..o] == [];
    } else {
      var n := |words| - 1;
      WordsBytesUnique(data, o, words[..n]);
      WordAtIs(data, o + 4 * n, words[n]);
      hide WordAt, WordBytes;
      Cut(data, o, o + 4 * n, o + 4 * n + 4);
    }
  }

  lemma IntAtIs(data: seq<Byte>, o: nat, v: int)
    requires o + 4 <= |data| && Fits(v)
    ensures IntAt(data, o) == Some(v) <==> data[o..o + 4] == IntBytes(v)
  {
    IntReadsBack(v);
    IntWritesBack(data[o], data[o + 1], data[o + 2], data[o + 3]);
    assert data[o..o + 4] == [data[o], data[o + 1], data[o + 2], data[o + 3]];
  }

  /** A section is read exactly where it is written. */
  lemma SectionIs(data: seq<Byte>, o: nat, words: seq<Word>)
    ensures SectionAt(data, o) == Some(words) <==>
      Fits(|words|) && o + 4 + 4 * |words| <= |data| && data[o..o + 4 + 4 * |words|] == Section(words)
  {
    if SectionAt(data, o) == Some(words) {
      IntWritesBack(data[o], data[o + 1], data[o + 2], data[o + 3]);
      IntAtIs(data, o, |words|);
      WordsBytesUnique(data, o + 4, words);
      assert data[o..o + 4 + 4 * |words|] == data[o..o + 4] + data[o + 4..o + 4 + 4 * |words|];
    } else if Fits(|words|) && o + 4 + 4 * |words| <= |data| && data[o..o + 4 + 4 * |words|] == Section(words) {
      SectionReads(data, o, words);
    }
  }

  lemma WordInSection(words: seq<Word>, i: nat)
    requires Fits(|words|) && i < |words|
    ensures WordAt(Section(words), 4 + 4 * i) == words[i]
  {
    WordBytesAt(words, i);
    WordAtIs(WordsBytes(words), 4 * i, words[i]);
    hide WordsBytes;
  }

  lemma SectionReads(data: seq<Byte>, o: nat, words: seq<Word>)
    requires Fits(|words|) && o + 4 + 4 * |words| <= |data| && data[o..o + 4 + 4 * |words|] == Section(words)
    ensures SectionAt(data, o) == Some(words)
  {
    var section := data[o..o + 4 + 4 * |words|];
    assert data[o..o + 4] == section[..4] == IntBytes(|words|);
    IntAtIs(data, o, |words|);
    hide Section, IntBytes, WordsBytes, IntOf;
    forall i | 0 <= i < |words| ensures words[i] == WordAt(data, o + 4 + 4 * i) {
      WordInSection(words, i);
      assert WordAt(data, o + (4 + 4 * i)) == WordAt(section, 4 + 4 * i);
    }
    assert WordsAt(data, o + 4, |words|).value == words;
  }

  lemma {:induction false} CornerBytesAt(corners: seq<Corner>, i: nat)
    requires i < |corners| && forall c :: c in corners ==> CornerFits(c)
    ensures CornerFits(corners[i])
    ensures CornersBytes(corners)[12 * i..12 * i + 12]
         == IntBytes(corners[i].position) + IntBytes(corners[i].uv) + IntBytes(corners[i].normal)
  {
    var init := corners[..|corners| - 1];
    assert corners[i] in corners;
    if i < |init| {
      CornerBytesAt(init, i);
      assert corners[i] == init[i];
      assert CornersBytes(corners)[12 * i..12 * i + 12] == CornersBytes(init)[12 * i..12 * i + 12];
    }
  }

  lemma CornerAtIs(data: seq<Byte>, o: nat, c: Corner)
    requires o + 12 <= |data|
    ensures CornerAt(data, o) == c <==>
      CornerFits(c) && data[o..o + 12] == IntBytes(c.position) + IntBytes(c.uv) + IntBytes(c.normal)
  {
    assert data[o..o + 12] == data[o..o + 4] + data[o + 4..o + 8] + data[o + 8..o + 12];
    IntWritesBack(data[o], data[o + 1], data[o + 2], data[o + 3]);
    IntWritesBack(data[o + 4], data[o + 5], data[o + 6], data[o + 7]);
    IntWritesBack(data[o + 8], data[o + 9], data[o + 10], data[o + 11]);
    hide IntBytes, IntOf;
    if CornerFits(c) {
      IntAtIs(data, o, c.position);
      IntAtIs(data, o + 4, c.uv);
      IntAtIs(data, o + 8, c.normal);
      if data[o..o + 12] == IntBytes(c.position) + IntBytes(c.uv) + IntBytes(c.normal) {
        assert data[o..o + 4] == data[o..o + 12][..4] == IntBytes(c.position);
        assert data[o + 4..o + 8] == data[o..o + 12][4..8] == IntBytes(c.uv);
        assert data[o + 8..o + 12] == data[o..o + 12][8..12] == IntBytes(c.normal);
      }
    }
  }

  lemma {:induction false} CornersBytesUnique(data: seq<Byte>, o: nat, corners: seq<Corner>)
    requires o + 12 * |corners| <= |data| && forall i :: 0 <= i < |corners| ==> corners[i] == CornerAt(data, o + 12 * i)
    ensures forall c :: c in corners ==> CornerFits(c)
    ensures data[o..o + 12 * |corners|] == CornersBytes(corners)
  {
    if corners == [] {
      assert data[o..o] == [];
    } else {
      var n := |corners| - 1;
      assert corners == corners[..n] + [corners[n]];
      CornersBytesUnique(data, o, corners[..n]);
      CornerAtIs(data, o + 12 * n, corners[n]);
      assert data[o..o + 12 * |corners|] == data[o..o + 12 * n] + data[o + 12 * n..o + 12 * n + 12];
    }
  }

  lemma CornersRead(data: seq<Byte>, o: nat, corners: seq<Corner>)
    requires Fits(|corners|) && (forall c :: c in corners ==> CornerFits(c))
    requires o + 4 + 12 * |corners| == |data| && data[o..] == CornerSection(corners)
    ensures CornersAt(data, o) == Some(corners)
  {
    hide IntBytes, IntOf, CornersBytes, CornerAt, IntAt;
    var section := data[o..];
    assert data[o..o + 4] == section[..4] == IntBytes(|corners|);
    IntAtIs(data, o, |corners|);
    forall i | 0 <= i < |corners| ensures corners[i] == CornerAt(data, o + 4 + 12 * i) {
      CornerBytesAt(corners, i);
      SameSlice(data, o, 4 + 12 * i, 12);
      SectionSlice(corners, 12 * i, 12);
      CornerAtIs(data, o + 4 + 12 * i, corners[i]);
    }
    assert CornersAt(data, o).value == corners;
  }

  lemma SameSlice(data: seq<Byte>, o: nat, from: nat, n: nat)
    requires o + from + n <= |data|
    ensures data[o + from..o + from + n] == data[o..][from..from + n]
  {}

  lemma SectionSlice(corners: seq<Corner>, from: nat, n: nat)
    requires Fits(|corners|) && (forall c :: c in corners ==> CornerFits(c)) && from + n <= 12 * |corners|
    ensures CornerSection(corners)[4 + from..4 + from + n] == CornersBytes(corners)[from..from + n]
  {
    hide IntBytes, CornersBytes;
    SliceAfter(IntBytes(|corners|), CornersBytes(corners), from, n);
  }

  lemma SliceAfter(head: seq<Byte>, rest: seq<Byte>, from: nat, n: nat)
    requires |head| == 4 && from + n <= |rest|
    ensures (head + rest)[4 + from..4 + from + n] == rest[from..from + n]
  {}

  lemma CornersUnique(data: seq<Byte>, o: nat, corners: seq<Corner>)
    requires CornersAt(data, o) == Some(corners)
    ensures Fits(|corners|) && (forall c :: c in corners ==> CornerFits(c))
    ensures o + 4 + 12 * |corners| == |data| && data[o..] == CornerSection(corners)
  {
    IntWritesBack(data[o], data[o + 1], data[o + 2], data[o + 3]);
    IntAtIs(data, o, |corners|);
    CornersBytesUnique(data, o + 4, corners);
    assert data[o..] == data[o..o + 4] + data[o + 4..o + 4 + 12 * |corners|];
  }

  /** What is written is read back, so it is well formed, and only what is written that way is read as a mesh. */
  lemma ReadsWhatIsWritten(m: Model, data: seq<Byte>)
    ensures Read(data) == Some(m) <==> Write(m) == Some(data)
  {
    hide SectionAt, CornersAt, Section, CornerSection;
    var o1 := 4 + 4 * |m.positions|;
    var o2 := o1 + 4 + 4 * |m.uvs|;
    var o3 := o2 + 4 + 4 * |m.normals|;
    SectionIs(data, 0, m.positions);
    SectionIs(data, o1, m.uvs);
    SectionIs(data, o2, m.normals);
    if Read(data) == Some(m) {
      CornersUnique(data, o3, m.corners);
      assert data == data[0..o1] + data[o1..o2] + data[o2..o3] + data[o3..];
    }
    if Write(m) == Some(data) {
      assert data[0..o1] == Section(m.positions);
      assert data[o1..o2] == Section(m.uvs);
      assert data[o2..o3] == Section(m.normals);
      assert data[o3..] == CornerSection(m.corners);
      CornersRead(data, o3, m.corners);
    }
  }

  // ---- Where the bytes are ----

  /** The number that bytes stand for, the highest first. */
  function BigEndian(b: seq<Byte>): nat {
    if b == [] then 0 else 256 * BigEndian(b[..|b| - 1]) + b[|b| - 1]
  }

  /** A number in four bytes, the highest first, negative ones modulo 2^32. */
  predicate Holds(data: seq<Byte>, o: nat, v: int) {
    o + 4 <= |data| && -TWO_31 <= v < TWO_31 && BigEndian(data[o..o + 4]) == v % TWO_32
  }

  lemma IntHeld(data: seq<Byte>, o: nat, v: int)
    requires IntAt(data, o) == Some(v)
    ensures Holds(data, o, v)
  {
    var b := data[o..o + 4];
    assert b[..3][..2][..1] == [b[0]] && b[..3][..2] == [b[0], b[1]] && b[..3] == [b[0], b[1], b[2]];
    BigEndianOne(b[0]);
    assert BigEndian(b[..3][..2]) == 256 * (b[0] as int) + b[1];
    assert BigEndian(b[..3]) == 256 * (256 * (b[0] as int) + b[1]) + b[2];
  }

  lemma BigEndianOne(b: Byte)
    ensures BigEndian([b]) == b
  {
    assert [b][..0] == [];
  }

  /** A section at an offset: the count, and then the four bytes of every float. */
  predicate SectionHeld(data: seq<Byte>, o: nat, words: seq<Word>) {
    && Holds(data, o, |words|) && o + 4 + 4 * |words| <= |data|
    && forall i :: 0 <= i < |words| ==>
         data[o + 4 + 4 * i..o + 4 + 4 * i + 4] == [words[i].a, words[i].b, words[i].c, words[i].d]
  }

  /** Three sections of floats, and then the corners with their three indices each, to the end of the file. */
  predicate FileHeld(data: seq<Byte>, m: Model) {
    var uvs := 4 + 4 * |m.positions|;
    var normals := uvs + 4 + 4 * |m.uvs|;
    var corners := normals + 4 + 4 * |m.normals|;
    && |data| == corners + 4 + 12 * |m.corners|
    && SectionHeld(data, 0, m.positions) && SectionHeld(data, uvs, m.uvs) && SectionHeld(data, normals, m.normals)
    && Holds(data, corners, |m.corners|)
    && forall i :: 0 <= i < |m.corners| ==>
         && Holds(data, corners + 4 + 12 * i, m.corners[i].position)
         && Holds(data, corners + 8 + 12 * i, m.corners[i].uv)
         && Holds(data, corners + 12 + 12 * i, m.corners[i].normal)
  }

  lemma SectionIsHeld(data: seq<Byte>, o: nat, words: seq<Word>)
    requires SectionAt(data, o) == Some(words)
    ensures SectionHeld(data, o, words)
  {
    hide BigEndian;
    IntHeld(data, o, |words|);
    hide Holds, IntAt;
    forall i | 0 <= i < |words|
      ensures data[o + 4 + 4 * i..o + 4 + 4 * i + 4] == [words[i].a, words[i].b, words[i].c, words[i].d]
    {
      WordAtIs(data, o + 4 + 4 * i, words[i]);
    }
  }

  lemma CornersAreHeld(data: seq<Byte>, o: nat, corners: seq<Corner>)
    requires CornersAt(data, o) == Some(corners)
    ensures |data| == o + 4 + 12 * |corners| && Holds(data, o, |corners|)
    ensures forall i :: 0 <= i < |corners| ==>
      && Holds(data, o + 4 + 12 * i, corners[i].position)
      && Holds(data, o + 8 + 12 * i, corners[i].uv)
      && Holds(data, o + 12 + 12 * i, corners[i].normal)
  {
    hide BigEndian, Holds, IntOf;
    IntHeld(data, o, |corners|);
    forall i | 0 <= i < |corners|
      ensures Holds(data, o + 4 + 12 * i, corners[i].position)
      ensures Holds(data, o + 8 + 12 * i, corners[i].uv)
      ensures Holds(data, o + 12 + 12 * i, corners[i].normal)
    {
      assert corners[i] == CornerAt(data, o + 4 + 12 * i);
      IntHeld(data, o + 4 + 12 * i, corners[i].position);
      IntHeld(data, o + 4 + 12 * i + 4, corners[i].uv);
      IntHeld(data, o + 4 + 12 * i + 8, corners[i].normal);
    }
  }

  /** The bytes of a mesh, each at its place. */
  lemma FileIs(m: Model, data: seq<Byte>)
    requires Write(m) == Some(data)
    ensures FileHeld(data, m)
  {
    hide Write, SectionAt, CornersAt, SectionHeld, Holds;
    ReadsWhatIsWritten(m, data);
    var uvs := 4 + 4 * |m.positions|;
    var normals := uvs + 4 + 4 * |m.uvs|;
    SectionIsHeld(data, 0, m.positions);
    SectionIsHeld(data, uvs, m.uvs);
    SectionIsHeld(data, normals, m.normals);
    CornersAreHeld(data, normals + 4 + 4 * |m.normals|, m.corners);
  }
}
