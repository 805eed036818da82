/** The text form of a mesh, and the conversions between it and the binary form. */
module MeshText {
  import opened Wrappers
  import opened Mesh

  /** How floats are written and read as text, and the comment lines that are written first. */
  datatype Floats = Floats(write: Word -> string, read: string -> Option<Word>, header: seq<string>)

  // ---- Lines, words and fields ----

  predicate IsBreak(c: char) { c == '\n' || c == '\r' }

  predicate IsSpace(c: char) {
    c == ' ' || c == '\t' || IsBreak(c) || c == '\U{0B}' || c == '\U{0C}' || '\U{1C}' <= c <= '\U{1F}'
  }

  /** Where the first character of some kind is, or the length. */
  function First(s: string, kind: char -> bool): (i: nat)
    ensures i <= |s| && (forall j :: 0 <= j < i ==> !kind(s[j])) && (i < |s| ==> kind(s[i]))
  {
    if s == "" || kind(s[0]) then 0 else 1 + First(s[1..], kind)
  }

  function Lines(text: string): seq<string>
    decreases |text|
  {
    if text == "" then []
    else
      var i := First(text, IsBreak);
      [text[..i]] + (if i < |text| then Lines(text[i + 1..]) else [])
  }

  function Tokens(line: string): seq<string>
    decreases |line|
  {
    if line == "" then []
    else if IsSpace(line[0]) then Tokens(line[1..])
    else
      var i := First(line, IsSpace);
      [line[..i]] + Tokens(line[i..])
  }

  function SplitSlash(s: string): (r: seq<string>)
    ensures |r| > 0
    decreases |s|
  {
    var i := First(s, c => c == '/');
    if i == |s| then [s] else [s[..i]] + SplitSlash(s[i + 1..])
  }

  // ---- Integers ----

  predicate IsDigit(c: char) { '0' <= c <= '9' }

  /** Digits, with single underscores between them allowed. */
  function Number(s: string): Option<nat>
    decreases |s|
  {
    if s == "" || !IsDigit(s[|s| - 1]) then None
    else
      var digit: nat := (s[|s| - 1] - '0') as int;
      if |s| == 1 then Some(digit)
      else
        var init := s[..|s| - 1];
        var n :- Number(if init[|init| - 1] == '_' then init[..|init| - 1] else init);
        Some(10 * n + digit)
  }

  function Integer(s: string): Option<int> {
    var negative := s != "" && s[0] == '-';
    match Number(if negative || (s != "" && s[0] == '+') then s[1..] else s)
    case None => None
    case Some(n) => var v: int := n; Some(if negative then -v else v)
  }

  function NumberText(n: nat): (s: string)
    ensures s != "" && forall c :: c in s ==> IsDigit(c)
  {
    var digit := '0' + (n % 10) as char;
    if n < 10 then [digit] else NumberText(n / 10) + [digit]
  }

  function IntegerText(v: int): string {
    if v < 0 then "-" + NumberText(-v) else NumberText(v)
  }

  lemma {:induction false} NumberReadsBack(n: nat)
    ensures Number(NumberText(n)) == Some(n)
  {
    var s := NumberText(n);
    if n >= 10 {
      NumberReadsBack(n / 10);
      var init := s[..|s| - 1];
      assert init == NumberText(n / 10);
      assert init[|init| - 1] in init;
    }
  }

  lemma IntegerReadsBack(v: int)
    ensures Integer(IntegerText(v)) == Some(v)
    ensures IntegerText(v) != "" && forall c :: c in IntegerText(v) ==> c == '-' || IsDigit(c)
  {
    if v < 0 {
      NumberReadsBack(-v);
      assert IntegerText(v)[1..] == NumberText(-v);
    } else {
      NumberReadsBack(v);
      assert IntegerText(v)[0] in IntegerText(v);
    }
  }

  // ---- Reading text ----

  /** An index of a face: counted from 1, and left out for none. */
  function Index(field: string): Option<int> {
    if field == "" then Some(-1)
    else
      var n :- Integer(field);
      Some(n - 1)
  }

  function FieldAt(fields: seq<string>, i: nat): string {
    if i < |fields| then fields[i] else ""
  }

  function Vertex(s: string): Option<Corner> {
    var fields := SplitSlash(s);
    var position :- Index(fields[0]);
    var uv :- Index(FieldAt(fields, 1));
    var normal :- Index(FieldAt(fields, 2));
    Some(Corner(position, uv, normal))
  }

  function Face(vertices: seq<string>): Option<seq<Corner>> {
    if vertices == [] then Some([])
    else
      var corner :- Vertex(vertices[0]);
      var rest :- Face(vertices[1..]);
      Some([corner] + rest)
  }

  /** The triangles of a face that use its corners up to `last`. */
  function FanTo(face: seq<Corner>, last: nat): seq<Corner>
    requires last < |face|
  {
    if last < 2 then [] else FanTo(face, last - 1) + [face[0], face[last - 1], face[last]]
  }

  function Fan(face: seq<Corner>): seq<Corner> {
    if face == [] then [] else FanTo(face, |face| - 1)
  }

  function Floating(f: Floats, tokens: seq<string>): Option<seq<Word>> {
    if tokens == [] then Some([])
    else
      var w :- f.read(tokens[0]);
      var rest :- Floating(f, tokens[1..]);
      Some([w] + rest)
  }

  datatype Kind = Positions | Uvs | Normals

  function Tag(kind: Kind): string {
    match kind
    case Positions => "v"
    case Uvs => "vt"
    case Normals => "vn"
  }

  function Arity(kind: Kind): (k: nat)
    ensures k == 2 || k == 3
  {
    if kind.Uvs? then 2 else 3
  }

  function Appended(m: Model, kind: Kind, words: seq<Word>): Model {
    match kind
    case Positions => m.(positions := m.positions + words)
    case Uvs => m.(uvs := m.uvs + words)
    case Normals => m.(normals := m.normals + words)
  }

  function AddFloats(m: Model, f: Floats, kind: Kind, parts: seq<string>): Option<Model>
    requires parts != []
  {
    if |parts| < 1 + Arity(kind) then None
    else
      var words :- Floating(f, parts[1..1 + Arity(kind)]);
      Some(Appended(m, kind, words))
  }

  function AddLine(m: Model, f: Floats, line: string): Option<Model> {
    var parts := Tokens(line);
    if parts == [] || (parts[0] != "" && parts[0][0] == '#') then Some(m)
    else if parts[0] == "v" then AddFloats(m, f, Positions, parts)
    else if parts[0] == "vt" then AddFloats(m, f, Uvs, parts)
    else if parts[0] == "vn" then AddFloats(m, f, Normals, parts)
    else if parts[0] == "f" then
      var face :- Face(parts[1..]);
      Some(m.(corners := m.corners + Fan(face)))
    else Some(m)
  }

  function AddLines(m: Model, f: Floats, lines: seq<string>): Option<Model>
    decreases |lines|
  {
    if lines == [] then Some(m)
    else
      var added :- AddLine(m, f, lines[0]);
      AddLines(added, f, lines[1..])
  }

  const EMPTY := Model([], [], [], [])

  function Encoded(f: Floats, text: string): Option<seq<Byte>> {
    var m :- AddLines(EMPTY, f, Lines(text));
    Write(m)
  }

  // ---- Writing text ----

  function Joined(lines: seq<string>): string {
    if lines == [] then "" else lines[0] + "\n" + Joined(lines[1..])
  }

  function Spaced(tokens: seq<string>): string {
    if tokens == [] then "" else if |tokens| == 1 then tokens[0] else tokens[0] + " " + Spaced(tokens[1..])
  }

  function Texts(f: Floats, words: seq<Word>): seq<string> {
    seq(|words|, i requires 0 <= i < |words| => f.write(words[i]))
  }

  function FloatLine(f: Floats, kind: Kind, words: seq<Word>): string {
    Spaced([Tag(kind)] + Texts(f, words))
  }

  /** A line for each whole group of floats. */
  function FloatLines(f: Floats, kind: Kind, words: seq<Word>): seq<string> {
    if |words| < Arity(kind) then []
    else [FloatLine(f, kind, words[..Arity(kind)])] + FloatLines(f, kind, words[Arity(kind)..])
  }

  function VertexText(c: Corner): string {
    IntegerText(c.position + 1) + "/" + IntegerText(c.uv + 1) + "/" + IntegerText(c.normal + 1)
  }

  function FaceLine(a: Corner, b: Corner, c: Corner): string {
    Spaced(["f", VertexText(a), VertexText(b), VertexText(c)])
  }

  /** A line for each whole triangle. */
  function FaceLines(corners: seq<Corner>): seq<string> {
    if |corners| < 3 then [] else [FaceLine(corners[0], corners[1], corners[2])] + FaceLines(corners[3..])
  }

  function MeshLines(f: Floats, m: Model): seq<string> {
    FloatLines(f, Positions, m.positions)
      + (FloatLines(f, Uvs, m.uvs) + (FloatLines(f, Normals, m.normals) + FaceLines(m.corners)))
  }

  function Printed(f: Floats, m: Model): seq<string> { f.header + MeshLines(f, m) }

  function Decoded(f: Floats, data: seq<Byte>): Option<string> {
    var m :- Read(data);
    Some(Joined(Printed(f, m)))
  }

  // ---- Text is split where it was joined ----

  predicate Token(s: string) { s != "" && forall c :: c in s ==> !IsSpace(c) }

  predicate Comment(line: string) { line != "" && line[0] == '#' && forall c :: c in line ==> !IsBreak(c) }

  /** Floats are written as one word, and the lines written first are comments. */
  ghost predicate Plain(f: Floats) {
    (forall w :: Token(f.write(w))) && (forall line :: line in f.header ==> Comment(line))
  }

  lemma {:induction false} FirstIs(s: string, kind: char -> bool, i: nat)
    requires i <= |s| && (forall j :: 0 <= j < i ==> !kind(s[j])) && (i < |s| ==> kind(s[i]))
    ensures First(s, kind) == i
  {}

  lemma {:induction false} LinesOfJoined(lines: seq<string>)
    requires forall line, c :: line in lines && c in line ==> !IsBreak(c)
    ensures Lines(Joined(lines)) == lines
  {
    if lines != [] {
      var line, rest := lines[0], lines[1..];
      assert line in lines && forall x :: x in rest ==> x in lines;
      LinesOfJoined(rest);
      hide Lines;
      LinesCut(line, Joined(rest));
    }
  }

  lemma LinesCut(line: string, rest: string)
    requires forall c :: c in line ==> !IsBreak(c)
    ensures Lines(line + "\n" + rest) == [line] + Lines(rest)
  {
    var text := line + "\n" + rest;
    forall j | 0 <= j < |line| ensures !IsBreak(text[j]) {
      assert text[j] == line[j];
    }
    FirstIs(text, IsBreak, |line|);
    assert text[..|line|] == line && text[|line| + 1..] == rest;
  }

  lemma TokenFirst(token: string, rest: string)
    requires Token(token) && (rest == "" || rest[0] == ' ')
    ensures Tokens(token + rest) == [token] + Tokens(rest)
  {
    var line := token + rest;
    assert line[0] == token[0] && token[0] in token;
    forall j | 0 <= j < |token| ensures !IsSpace(line[j]) {
      assert line[j] == token[j] && token[j] in token;
    }
    FirstIs(line, IsSpace, |token|);
    assert line[..|token|] == token && line[|token|..] == rest;
  }

  lemma {:induction false} TokensOfSpaced(tokens: seq<string>)
    requires forall token :: token in tokens ==> Token(token)
    ensures Tokens(Spaced(tokens)) == tokens
  {
    if tokens != [] {
      var token, rest := tokens[0], tokens[1..];
      assert token in tokens && forall x :: x in rest ==> x in tokens;
      TokensOfSpaced(rest);
      assert tokens == [token] + rest;
      if |tokens| > 1 {
        assert Spaced(tokens) == token + (" " + Spaced(rest));
        TokenFirst(token, " " + Spaced(rest));
        assert (" " + Spaced(rest))[1..] == Spaced(rest);
      } else {
        assert token + "" == token;
        TokenFirst(token, "");
      }
    }
  }

  lemma {:induction false} SpacedChars(tokens: seq<string>)
    requires forall token :: token in tokens ==> Token(token)
    ensures forall c :: c in Spaced(tokens) ==> !IsBreak(c)
  {
    if |tokens| > 1 {
      assert tokens[0] in tokens && forall x :: x in tokens[1..] ==> x in tokens;
      SpacedChars(tokens[1..]);
    } else if |tokens| == 1 {
      assert tokens[0] in tokens;
    }
  }

  lemma VertexReadsBack(c: Corner)
    ensures Vertex(VertexText(c)) == Some(c) && Token(VertexText(c))
  {
    var a, b, d := IntegerText(c.position + 1), IntegerText(c.uv + 1), IntegerText(c.normal + 1);
    IntegerReadsBack(c.position + 1);
    IntegerReadsBack(c.uv + 1);
    IntegerReadsBack(c.normal + 1);
    hide Integer, IntegerText, SplitSlash;
    var rest := b + "/" + d;
    assert VertexText(c) == a + "/" + rest;
    SplitAt(a, rest);
    SplitAt(b, d);
    SplitNone(d);
    assert SplitSlash(VertexText(c)) == [a, b, d];
  }

  lemma SplitAt(a: string, rest: string)
    requires forall c :: c in a ==> c != '/'
    ensures SplitSlash(a + "/" + rest) == [a] + SplitSlash(rest)
  {
    var s := a + "/" + rest;
    assert forall j :: 0 <= j < |a| ==> s[j] == a[j] && a[j] in a;
    assert s[|a|] == '/';
    assert First(s, c => c == '/') == |a|;
    assert s[..|a|] == a && s[|a| + 1..] == rest;
  }

  lemma SplitNone(a: string)
    requires forall c :: c in a ==> c != '/'
    ensures SplitSlash(a) == [a]
  {
    assert forall j :: 0 <= j < |a| ==> a[j] in a;
  }

  // ---- The text read back ----

  /** The words as they come back from their text. */
  function Through(f: Floats, words: seq<Word>): Option<seq<Word>> { Floating(f, Texts(f, words)) }

  /** The words of the whole groups, as they come back. */
  function ThroughWhole(f: Floats, words: seq<Word>, k: nat): Option<seq<Word>>
    requires k > 0
    decreases |words|
  {
    if |words| < k then Some([])
    else
      var first :- Through(f, words[..k]);
      var rest :- ThroughWhole(f, words[k..], k);
      Some(first + rest)
  }

  function WholeTriangles(corners: seq<Corner>): seq<Corner>
    decreases |corners|
  {
    if |corners| < 3 then [] else corners[..3] + WholeTriangles(corners[3..])
  }

  lemma FloatLineParts(f: Floats, kind: Kind, words: seq<Word>)
    requires Plain(f)
    ensures Tokens(FloatLine(f, kind, words)) == [Tag(kind)] + Texts(f, words)
    ensures forall c :: c in FloatLine(f, kind, words) ==> !IsBreak(c)
  {
    var tokens := [Tag(kind)] + Texts(f, words);
    forall token | token in tokens ensures Token(token) {}
    TokensOfSpaced(tokens);
    SpacedChars(tokens);
  }

  lemma FloatLineReads(m: Model, f: Floats, kind: Kind, words: seq<Word>)
    requires Plain(f) && |words| == Arity(kind)
    ensures AddLine(m, f, FloatLine(f, kind, words))
         == match Through(f, words) { case None => None case Some(r) => Some(Appended(m, kind, r)) }
  {
    hide AddLine, FloatLine, Through;
    FloatsOfLine(m, f, kind, words);
    assert words[..Arity(kind)] == words;
  }

  lemma AppendedTwice(m: Model, kind: Kind, a: seq<Word>, b: seq<Word>)
    ensures Appended(Appended(m, kind, a), kind, b) == Appended(m, kind, a + b)
  {
    assert m.positions + a + b == m.positions + (a + b);
    assert m.uvs + a + b == m.uvs + (a + b);
    assert m.normals + a + b == m.normals + (a + b);
  }

  /** The lines of floats add the words of their whole groups, or cannot be read. */
  lemma {:induction false} FloatLinesRead(m: Model, f: Floats, kind: Kind, words: seq<Word>, rest: seq<string>)
    requires Plain(f)
    ensures AddLines(m, f, FloatLines(f, kind, words) + rest)
         == match ThroughWhole(f, words, Arity(kind)) {
              case None => None
              case Some(r) => AddLines(Appended(m, kind, r), f, rest)
            }
    decreases |words|
  {
    hide AddLine, FloatLine, Through, Plain;
    var k := Arity(kind);
    if |words| < k {
      assert FloatLines(f, kind, words) + rest == rest;
      assert Appended(m, kind, []) == m;
    } else {
      var first, more := FloatLine(f, kind, words[..k]), FloatLines(f, kind, words[k..]) + rest;
      FloatLineReads(m, f, kind, words[..k]);
      assert FloatLines(f, kind, words) + rest == [first] + more;
      assert ([first] + more)[1..] == more;
      if Through(f, words[..k]).Some? {
        var r := Through(f, words[..k]).value;
        FloatLinesRead(Appended(m, kind, r), f, kind, words[k..], rest);
        if ThroughWhole(f, words[k..], k).Some? {
          AppendedTwice(m, kind, r, ThroughWhole(f, words[k..], k).value);
        }
      }
    }
  }

  lemma FaceCons(vertex: string, rest: seq<string>, c: Corner, cs: seq<Corner>)
    requires Vertex(vertex) == Some(c) && Face(rest) == Some(cs)
    ensures Face([vertex] + rest) == Some([c] + cs)
  {
    assert ([vertex] + rest)[1..] == rest;
  }

  lemma AddLinesCons(m: Model, f: Floats, first: string, rest: seq<string>)
    ensures AddLines(m, f, [first] + rest)
         == match AddLine(m, f, first) { case None => None case Some(added) => AddLines(added, f, rest) }
  {
    assert ([first] + rest)[1..] == rest;
  }

  lemma FaceTokens(a: Corner, b: Corner, c: Corner)
    ensures Tokens(FaceLine(a, b, c)) == ["f", VertexText(a), VertexText(b), VertexText(c)]
    ensures forall ch :: ch in FaceLine(a, b, c) ==> !IsBreak(ch)
  {
    VertexReadsBack(a);
    VertexReadsBack(b);
    VertexReadsBack(c);
    hide Vertex, VertexText;
    var tokens := ["f", VertexText(a), VertexText(b), VertexText(c)];
    TokensOfSpaced(tokens);
    SpacedChars(tokens);
  }

  lemma FaceReads(a: Corner, b: Corner, c: Corner)
    ensures Face([VertexText(a), VertexText(b), VertexText(c)]) == Some([a, b, c])
  {
    VertexReadsBack(a);
    VertexReadsBack(b);
    VertexReadsBack(c);
    hide Vertex, VertexText;
    FaceCons(VertexText(c), [], c, []);
    assert [VertexText(c)] + [] == [VertexText(c)] && [c] + [] == [c];
    FaceCons(VertexText(b), [VertexText(c)], b, [c]);
    assert [VertexText(b)] + [VertexText(c)] == [VertexText(b), VertexText(c)] && [b] + [c] == [b, c];
    FaceCons(VertexText(a), [VertexText(b), VertexText(c)], a, [b, c]);
    assert [VertexText(a)] + [VertexText(b), VertexText(c)] == [VertexText(a), VertexText(b), VertexText(c)];
    assert [a] + [b, c] == [a, b, c];
  }

  lemma FaceLineReads(m: Model, f: Floats, a: Corner, b: Corner, c: Corner)
    ensures AddLine(m, f, FaceLine(a, b, c)) == Some(m.(corners := m.corners + [a, b, c]))
    ensures forall ch :: ch in FaceLine(a, b, c) ==> !IsBreak(ch)
  {
    var tokens := ["f", VertexText(a), VertexText(b), VertexText(c)];
    FaceTokens(a, b, c);
    FaceReads(a, b, c);
    TriangleFan(a, b, c);
    assert tokens[1..] == [VertexText(a), VertexText(b), VertexText(c)];
    hide Tokens, Face, FaceLine, VertexText, IsBreak, Fan;
  }

  lemma TriangleFan(a: Corner, b: Corner, c: Corner)
    ensures Fan([a, b, c]) == [a, b, c]
  {
    var face := [a, b, c];
    assert FanTo(face, 1) == [];
    assert FanTo(face, 2) == [] + [a, b, c];
  }

  lemma {:induction false} FaceLinesRead(m: Model, f: Floats, corners: seq<Corner>)
    ensures AddLines(m, f, FaceLines(corners)) == Some(m.(corners := m.corners + WholeTriangles(corners)))
    decreases |corners|
  {
    hide AddLine, FaceLine;
    if |corners| < 3 {
      assert m.corners + [] == m.corners;
    } else {
      var a, b, c := corners[0], corners[1], corners[2];
      var m' := m.(corners := m.corners + [a, b, c]);
      FaceLineReads(m, f, a, b, c);
      FaceLinesRead(m', f, corners[3..]);
      AddLinesCons(m, f, FaceLine(a, b, c), FaceLines(corners[3..]));
      assert corners[..3] == [a, b, c];
      assert WholeTriangles(corners) == [a, b, c] + WholeTriangles(corners[3..]) by { hide AddLines; }
      hide AddLines, WholeTriangles, FaceLines;
      Regrouped(m.corners, [a, b, c], WholeTriangles(corners[3..]));
    }
  }

  lemma Regrouped(x: seq<Corner>, y: seq<Corner>, z: seq<Corner>)
    ensures x + (y + z) == x + y + z
  {}

  lemma CommentSkipped(m: Model, f: Floats, line: string)
    requires line != "" && line[0] == '#'
    ensures AddLine(m, f, line) == Some(m)
  {
    assert First(line, IsSpace) > 0;
  }

  lemma {:induction false} CommentsSkipped(m: Model, f: Floats, comments: seq<string>, lines: seq<string>)
    requires forall line :: line in comments ==> Comment(line)
    ensures AddLines(m, f, comments + lines) == AddLines(m, f, lines)
  {
    hide AddLine, AddLines;
    if comments == [] {
      assert comments + lines == lines;
    } else {
      var first, rest := comments[0], comments[1..];
      assert first in comments && forall line :: line in rest ==> line in comments;
      CommentSkipped(m, f, first);
      CommentsSkipped(m, f, rest, lines);
      assert comments + lines == [first] + (rest + lines);
      AddLinesCons(m, f, first, rest + lines);
    }
  }

  /** What reading the printed text gives: the floats as they come back, and the indices themselves. */
  function ReadBack(f: Floats, m: Model): Option<Model> {
    var positions :- ThroughWhole(f, m.positions, 3);
    var uvs :- ThroughWhole(f, m.uvs, 2);
    var normals :- ThroughWhole(f, m.normals, 3);
    Some(Model(positions, uvs, normals, WholeTriangles(m.corners)))
  }

  lemma PrintedReads(f: Floats, m: Model)
    requires Plain(f)
    ensures AddLines(EMPTY, f, Printed(f, m)) == ReadBack(f, m)
  {
    CommentsSkipped(EMPTY, f, f.header, MeshLines(f, m));
    LinesRead(f, m);
    hide AddLines, MeshLines, ReadBack;
  }

  lemma LinesRead(f: Floats, m: Model)
    requires Plain(f)
    ensures AddLines(EMPTY, f, MeshLines(f, m)) == ReadBack(f, m)
  {
    hide AddLine, AddLines, FloatLines, FaceLines, ThroughWhole, WholeTriangles, Plain;
    var l2, l3, l4 := FloatLines(f, Uvs, m.uvs), FloatLines(f, Normals, m.normals), FaceLines(m.corners);
    FloatLinesRead(EMPTY, f, Positions, m.positions, l2 + (l3 + l4));
    if ThroughWhole(f, m.positions, 3).Some? {
      var m1 := Appended(EMPTY, Positions, ThroughWhole(f, m.positions, 3).value);
      FloatLinesRead(m1, f, Uvs, m.uvs, l3 + l4);
      if ThroughWhole(f, m.uvs, 2).Some? {
        var m2 := Appended(m1, Uvs, ThroughWhole(f, m.uvs, 2).value);
        FloatLinesRead(m2, f, Normals, m.normals, l4);
        if ThroughWhole(f, m.normals, 3).Some? {
          var m3 := Appended(m2, Normals, ThroughWhole(f, m.normals, 3).value);
          FaceLinesRead(m3, f, m.corners);
          assert m3.(corners := m3.corners + WholeTriangles(m.corners))
              == Model(ThroughWhole(f, m.positions, 3).value, ThroughWhole(f, m.uvs, 2).value,
                       ThroughWhole(f, m.normals, 3).value, WholeTriangles(m.corners));
        }
      }
    }
  }

  // ---- The round trip ----

  /** The text of every one of these floats reads back as that float. */
  ghost predicate Lossless(f: Floats, words: seq<Word>) {
    forall w :: w in words ==> f.read(f.write(w)) == Some(w)
  }

  lemma {:induction false} ThroughIs(f: Floats, words: seq<Word>)
    ensures Through(f, words) == Some(words) <==> Lossless(f, words)
    ensures Through(f, words).Some? ==> |Through(f, words).value| == |words|
  {
    if words != [] {
      var first, rest := words[0], words[1..];
      assert words == [first] + rest;
      assert Texts(f, words)[1..] == Texts(f, rest);
      ThroughIs(f, rest);
      if Lossless(f, words) {
        assert first in words && forall w :: w in rest ==> w in words;
      }
      if Through(f, words) == Some(words) {
        var tail := Floating(f, Texts(f, rest)).value;
        assert words[1..] == ([f.read(f.write(first)).value] + tail)[1..] == tail;
      }
    }
  }

  lemma {:induction false} ThroughWholeIs(f: Floats, words: seq<Word>, k: nat)
    requires k == 2 || k == 3
    ensures ThroughWhole(f, words, k) == Some(words) <==> |words| % k == 0 && Lossless(f, words)
    ensures ThroughWhole(f, words, k).Some? ==> |ThroughWhole(f, words, k).value| <= |words|
    decreases |words|
  {
    hide Through;
    if |words| < k {
      assert words == [] <==> |words| % k == 0;
    } else {
      var a, b := words[..k], words[k..];
      assert words == a + b;
      ThroughIs(f, a);
      ThroughWholeIs(f, b, k);
      assert |words| % k == |b| % k;
      assert Lossless(f, words) <==> Lossless(f, a) && Lossless(f, b);
      hide Lossless;
      if ThroughWhole(f, words, k) == Some(words) {
        var x, y := Through(f, a).value, ThroughWhole(f, b, k).value;
        assert words[..k] == (x + y)[..k] == x && words[k..] == (x + y)[k..] == y;
      }
    }
  }

  lemma {:induction false} WholeTrianglesIs(corners: seq<Corner>)
    ensures WholeTriangles(corners) == corners <==> |corners| % 3 == 0
    ensures |WholeTriangles(corners)| <= |corners|
    decreases |corners|
  {
    if |corners| >= 3 {
      WholeTrianglesIs(corners[3..]);
      assert corners == corners[..3] + corners[3..];
      assert (corners[..3] + WholeTriangles(corners[3..]))[3..] == WholeTriangles(corners[3..]);
      assert |corners| % 3 == |corners[3..]| % 3;
    }
  }

  predicate Whole(m: Model) {
    |m.positions| % 3 == 0 && |m.uvs| % 2 == 0 && |m.normals| % 3 == 0 && |m.corners| % 3 == 0
  }

  ghost predicate AllLossless(f: Floats, m: Model) {
    Lossless(f, m.positions) && Lossless(f, m.uvs) && Lossless(f, m.normals)
  }

  lemma {:induction false} FloatLinesBreakless(f: Floats, kind: Kind, words: seq<Word>)
    requires Plain(f)
    ensures forall line, c :: line in FloatLines(f, kind, words) && c in line ==> !IsBreak(c)
    decreases |words|
  {
    hide Plain, IsBreak, FloatLine;
    if |words| >= Arity(kind) {
      FloatLineParts(f, kind, words[..Arity(kind)]);
      FloatLinesBreakless(f, kind, words[Arity(kind)..]);
    }
  }

  lemma {:induction false} FaceLinesBreakless(corners: seq<Corner>)
    ensures forall line, c :: line in FaceLines(corners) && c in line ==> !IsBreak(c)
    decreases |corners|
  {
    hide IsBreak, FaceLine, AddLine;
    if |corners| >= 3 {
      FaceLineReads(EMPTY, Floats(w => "0", s => None, []), corners[0], corners[1], corners[2]);
      FaceLinesBreakless(corners[3..]);
    }
  }

  lemma PrintedSplits(f: Floats, m: Model)
    requires Plain(f)
    ensures Lines(Joined(Printed(f, m))) == Printed(f, m)
  {
    FloatLinesBreakless(f, Positions, m.positions);
    FloatLinesBreakless(f, Uvs, m.uvs);
    FloatLinesBreakless(f, Normals, m.normals);
    FaceLinesBreakless(m.corners);
    assert forall line :: line in f.header ==> Comment(line);
    hide FloatLines, FaceLines, Lines, Joined, IsBreak, Plain;
    forall line, c | line in Printed(f, m) && c in line ensures !IsBreak(c) {}
    hide Printed;
    LinesOfJoined(Printed(f, m));
  }

  /** Converting a well-formed file to text and back gives the same bytes if and only if its counts are whole and its
      floats read back. Indices always do, also those that say that there is none. */
  lemma RoundTrip(f: Floats, data: seq<Byte>)
    requires Plain(f) && Read(data).Some?
    ensures Decoded(f, data).Some?
    ensures Encoded(f, Decoded(f, data).value) == Some(data) <==>
      Whole(Read(data).value) && AllLossless(f, Read(data).value)
  {
    var m := Read(data).value;
    hide Read, Write, Printed, AddLines, Plain, Lines, Joined;
    PrintedSplits(f, m);
    PrintedReads(f, m);
    ThroughWholeIs(f, m.positions, 3);
    ThroughWholeIs(f, m.uvs, 2);
    ThroughWholeIs(f, m.normals, 3);
    WholeTrianglesIs(m.corners);
    hide ThroughWhole, WholeTriangles, Lossless;
    ReadsWhatIsWritten(m, data);
    var added := AddLines(EMPTY, f, Printed(f, m));
    if added.Some? {
      ReadsWhatIsWritten(added.value, data);
    }
  }

  /** Every output of the encoder is well formed. */
  lemma EncodedIsWellFormed(f: Floats, text: string)
    requires Encoded(f, text).Some?
    ensures Read(Encoded(f, text).value) == AddLines(EMPTY, f, Lines(text))
  {
    ReadsWhatIsWritten(AddLines(EMPTY, f, Lines(text)).value, Encoded(f, text).value);
  }

  /** A face with k corners gives k - 2 triangles, all with its first corner, and the j-th with corners j + 1, j + 2. */
  lemma {:induction false} FanIs(face: seq<Corner>)
    ensures |Fan(face)| == if |face| < 3 then 0 else 3 * (|face| - 2)
    ensures forall j :: 0 <= j < |face| - 2 ==>
      Fan(face)[3 * j..3 * j + 3] == [face[0], face[j + 1], face[j + 2]]
  {
    if face != [] {
      FanToIs(face, |face| - 1);
    }
  }

  lemma {:induction false} FanToIs(face: seq<Corner>, last: nat)
    requires last < |face|
    ensures |FanTo(face, last)| == if last < 2 then 0 else 3 * (last - 1)
    ensures forall j :: 0 <= j < last - 1 ==> FanTo(face, last)[3 * j..3 * j + 3] == [face[0], face[j + 1], face[j + 2]]
  {
    if last >= 2 {
      FanToIs(face, last - 1);
      var before := FanTo(face, last - 1);
      forall j | 0 <= j < last - 1
        ensures FanTo(face, last)[3 * j..3 * j + 3] == [face[0], face[j + 1], face[j + 2]]
      {
        if j < last - 2 {
          assert FanTo(face, last)[3 * j..3 * j + 3] == before[3 * j..3 * j + 3];
        }
      }
    }
  }

  // ---- Text that the decoder does not write ----

  /** A sign in front and single underscores between the digits do not matter; a digit counts ten times the next. */
  lemma NumberForms(n: nat, s: string, digit: nat)
    requires Number(s) == Some(n) && digit < 10
    ensures var next, v: int := '0' + digit as char, n;
      && Number(s + [next]) == Some(10 * n + digit) && Number(s + "_" + [next]) == Some(10 * n + digit)
      && Integer("+" + s) == Some(v) && Integer("-" + s) == Some(-v) && Integer(s) == Some(v)
  {
    var next := '0' + digit as char;
    assert s[|s| - 1] != '_' && IsDigit(s[|s| - 1]);
    assert (s + [next])[..|s|] == s;
    assert (s + "_" + [next])[..|s| + 1] == s + "_" && (s + "_")[..|s|] == s;
    assert ("+" + s)[1..] == s && ("-" + s)[1..] == s;
    FirstIsDigit(s);
  }

  lemma {:induction false} FirstIsDigit(s: string)
    requires Number(s).Some?
    ensures s != "" && IsDigit(s[0])
    decreases |s|
  {
    if |s| > 1 {
      var init := s[..|s| - 1];
      var rest := if init[|init| - 1] == '_' then init[..|init| - 1] else init;
      FirstIsDigit(rest);
      assert rest[0] == s[0];
    }
  }

  /** The ways to write a corner: whatever is left out is none, and what comes after the third index is not read. */
  lemma CornerForms(c: Corner, more: string)
    ensures var a, b, d := IntegerText(c.position + 1), IntegerText(c.uv + 1), IntegerText(c.normal + 1);
      && Vertex(a) == Some(Corner(c.position, -1, -1))
      && Vertex(a + "/" + b) == Some(Corner(c.position, c.uv, -1))
      && Vertex(a + "/" + ("/" + d)) == Some(Corner(c.position, -1, c.normal))
      && Vertex("/" + (b + "/" + d)) == Some(Corner(-1, c.uv, c.normal))
      && Vertex(a + "/" + (b + "/" + (d + "/" + more))) == Some(c)
  {
    var a, b, d := IntegerText(c.position + 1), IntegerText(c.uv + 1), IntegerText(c.normal + 1);
    IntegerReadsBack(c.position + 1);
    IntegerReadsBack(c.uv + 1);
    IntegerReadsBack(c.normal + 1);
    hide Integer, IntegerText, SplitSlash;
    SplitNone(a);
    SplitAt(a, b);
    SplitNone(b);
    SplitNone(d);
    SplitAt("", d);
    assert "" + "/" + d == "/" + d;
    SplitAt(a, "/" + d);
    SplitAt(b, d);
    SplitAt("", b + "/" + d);
    assert "" + "/" + (b + "/" + d) == "/" + (b + "/" + d);
    SplitAt(d, more);
    SplitAt(b, d + "/" + more);
    SplitAt(a, b + "/" + (d + "/" + more));
  }

  /** Of a line of floats the first two or three are read, and fewer are an error. */
  lemma FloatsOfLine(m: Model, f: Floats, kind: Kind, words: seq<Word>)
    requires Plain(f)
    ensures AddLine(m, f, FloatLine(f, kind, words)) ==
      if |words| < Arity(kind) then None
      else match Through(f, words[..Arity(kind)]) { case None => None case Some(r) => Some(Appended(m, kind, r)) }
  {
    hide Tokens, Floating, FloatLine, AddLine, Appended;
    FloatLineParts(f, kind, words);
    var parts := [Tag(kind)] + Texts(f, words);
    TaggedLine(m, f, kind, FloatLine(f, kind, words), parts);
    if |words| >= Arity(kind) {
      assert parts[1..1 + Arity(kind)] == Texts(f, words[..Arity(kind)]);
    }
  }

  lemma TaggedLine(m: Model, f: Floats, kind: Kind, line: string, parts: seq<string>)
    requires Tokens(line) == parts && parts != [] && parts[0] == Tag(kind)
    ensures AddLine(m, f, line) == AddFloats(m, f, kind, parts)
  {
    hide Tokens, AddFloats;
  }

  function VertexTexts(face: seq<Corner>): seq<string> {
    seq(|face|, i requires 0 <= i < |face| => VertexText(face[i]))
  }

  lemma {:induction false} VerticesRead(face: seq<Corner>)
    ensures Face(VertexTexts(face)) == Some(face)
    ensures forall text :: text in VertexTexts(face) ==> Token(text)
  {
    hide Vertex, VertexText;
    if face != [] {
      var first, rest := face[0], face[1..];
      VertexReadsBack(first);
      VerticesRead(rest);
      assert VertexTexts(face) == [VertexText(first)] + VertexTexts(rest);
      FaceCons(VertexText(first), VertexTexts(rest), first, rest);
      assert [first] + rest == face;
    }
  }

  /** A line of a face with any number of corners adds its fan of triangles. */
  lemma FaceOfLine(m: Model, f: Floats, face: seq<Corner>)
    ensures AddLine(m, f, Spaced(["f"] + VertexTexts(face))) == Some(m.(corners := m.corners + Fan(face)))
  {
    var tokens := ["f"] + VertexTexts(face);
    VerticesRead(face);
    forall token | token in tokens ensures Token(token) {}
    TokensOfSpaced(tokens);
    assert tokens[1..] == VertexTexts(face);
    hide Tokens, Face, VertexTexts, Fan, Spaced;
  }

  /** Blank lines, comments and all other tags add nothing. */
  lemma OtherLines(m: Model, f: Floats, line: string)
    requires Tokens(line) != [] ==> Tokens(line)[0] !in {"v", "vt", "vn", "f"}
    ensures AddLine(m, f, line) == Some(m)
  {
    hide Tokens;
  }

  // ---- The programs ----

  method TriangulateFan(face: seq<Corner>, corners: seq<Corner>) returns (r: seq<Corner>)
    ensures r == corners + Fan(face)
  {
    r := corners;
    var i := 1;
    while i + 1 < |face|
      invariant 1 <= i && (face != [] ==> i <= |face| && (i < |face| ==> r == corners + FanTo(face, i)))
      invariant face == [] ==> r == corners
      invariant face != [] && i == |face| ==> i == 1 && r == corners + FanTo(face, 0)
      decreases |face| - i
    {
      r := r + [face[0], face[i], face[i + 1]];
      i := i + 1;
    }
  }

  method ReadFace(vertices: seq<string>) returns (face: Option<seq<Corner>>)
    ensures face == Face(vertices)
  {
    var corners := [];
    if Face(vertices).Some? {
      assert corners + Face(vertices).value == Face(vertices).value;
    }
    for i := 0 to |vertices|
      invariant Face(vertices) == match Face(vertices[i..]) { case None => None case Some(r) => Some(corners + r) }
    {
      assert vertices[i..][1..] == vertices[i + 1..];
      var corner := Vertex(vertices[i]);
      if corner.None? { return None; }
      ghost var was := corners;
      corners := corners + [corner.value];
      if Face(vertices[i + 1..]).Some? {
        assert was + ([corner.value] + Face(vertices[i + 1..]).value) == corners + Face(vertices[i + 1..]).value;
      }
    }
    assert corners + [] == corners;
    face := Some(corners);
  }

  method Obj2Binobj(f: Floats, text: string) returns (data: Option<seq<Byte>>)
    ensures data == Encoded(f, text)
  {
    var m, lines := EMPTY, Lines(text);
    for i := 0 to |lines|
      invariant AddLines(EMPTY, f, lines) == AddLines(m, f, lines[i..])
    {
      assert lines[i..][1..] == lines[i + 1..];
      var parts := Tokens(lines[i]);
      if parts == [] || (parts[0] != "" && parts[0][0] == '#') { continue; }
      if parts[0] == "f" {
        var face := ReadFace(parts[1..]);
        if face.None? { return None; }
        var corners := TriangulateFan(face.value, m.corners);
        m := m.(corners := corners);
      } else if parts[0] == "v" || parts[0] == "vt" || parts[0] == "vn" {
        var kind := if parts[0] == "v" then Positions else if parts[0] == "vt" then Uvs else Normals;
        var added := AddFloats(m, f, kind, parts);
        if added.None? { return None; }
        m := added.value;
      }
    }
    data := Write(m);
  }

  /** Reads on from an offset. */
  class BinobjReader {
    const data: seq<Byte>
    var offset: int

    constructor (bytes: seq<Byte>)
      ensures data == bytes && offset == 0
    {
      data, offset := bytes, 0;
    }

    method ReadInt() returns (value: Option<int>)
      requires 0 <= offset <= |data|
      modifies this`offset
      ensures value == IntAt(data, old(offset))
      ensures offset == old(offset) + if value.Some? then 4 else 0
    {
      value := IntAt(data, offset);
      if value.Some? {
        offset := offset + 4;
      }
    }

    method ReadFloats() returns (values: Option<seq<Word>>)
      requires 0 <= offset <= |data|
      modifies this`offset
      ensures values == SectionAt(data, old(offset))
      ensures values.Some? ==> offset == old(offset) + 4 + 4 * |values.value| && offset <= |data|
    {
      var count := ReadInt();
      if count.None? { return None; }
      values := WordsAt(data, offset, count.value);
      if values.Some? {
        offset := offset + 4 * count.value;
      }
    }

    /** A negative count reads no corners and moves the offset back, away from the end. */
    method ReadCorners() returns (corners: Option<seq<Corner>>)
      requires 0 <= offset <= |data|
      modifies this`offset
      ensures corners == CornersAt(data, old(offset))
    {
      var count := ReadInt();
      if count.None? { return None; }
      var list := [];
      var i := 0;
      while i < count.value
        invariant offset == old(offset) + 4 && 0 <= i && (i > 0 ==> i <= count.value && offset + 12 * i <= |data|)
        invariant |list| == i && forall j :: 0 <= j < i ==> list[j] == CornerAt(data, offset + 12 * j)
      {
        if offset + 12 * i + 12 > |data| { return None; }
        list := list + [CornerAt(data, offset + 12 * i)];
        i := i + 1;
      }
      offset := offset + 12 * count.value;
      if offset != |data| { return None; }
      corners := Some(list);
      assert list == CornersAt(data, old(offset)).value;
    }
  }

  /** One more line written is one line less to come. */
  lemma JoinedLine(written: string, line: string, rest: seq<string>)
    ensures written + Joined([line] + rest) == written + line + "\n" + Joined(rest)
  {
    assert ([line] + rest)[1..] == rest;
    assert Joined([line] + rest) == line + "\n" + Joined(rest);
    hide Joined;
    Grouped(written, line, Joined(rest));
  }

  lemma Grouped(a: string, b: string, c: string)
    ensures a + (b + "\n" + c) == a + b + "\n" + c
  {}

  lemma FloatsNext(f: Floats, kind: Kind, words: seq<Word>, at: nat, written: string)
    requires at + Arity(kind) <= |words|
    ensures var next := at + Arity(kind);
      written + Joined(FloatLines(f, kind, words[at..]))
      == written + FloatLine(f, kind, words[at..next]) + "\n" + Joined(FloatLines(f, kind, words[next..]))
  {
    var next := at + Arity(kind);
    assert words[at..][..Arity(kind)] == words[at..next] && words[at..][Arity(kind)..] == words[next..];
    JoinedLine(written, FloatLine(f, kind, words[at..next]), FloatLines(f, kind, words[next..]));
    hide Joined, FloatLine;
  }

  lemma NoFloatLines(f: Floats, kind: Kind, words: seq<Word>)
    ensures |words| < Arity(kind) ==> Joined(FloatLines(f, kind, words)) == ""
  {}

  lemma NoFaceLines(corners: seq<Corner>)
    ensures |corners| < 3 ==> Joined(FaceLines(corners)) == ""
  {}

  method WriteFloats(f: Floats, kind: Kind, words: seq<Word>, text: string) returns (r: string)
    ensures r == text + Joined(FloatLines(f, kind, words))
  {
    hide Joined, FloatLines, FloatLine;
    r := text;
    var at := 0;
    assert words[0..] == words;
    while at + Arity(kind) <= |words|
      invariant at <= |words|
      invariant text + Joined(FloatLines(f, kind, words)) == r + Joined(FloatLines(f, kind, words[at..]))
      decreases |words| - at
    {
      var next := at + Arity(kind);
      FloatsNext(f, kind, words, at, r);
      r := r + FloatLine(f, kind, words[at..next]) + "\n";
      at := next;
    }
    NoFloatLines(f, kind, words[at..]);
  }

  lemma FacesNext(corners: seq<Corner>, at: nat, written: string)
    requires at + 3 <= |corners|
    ensures written + Joined(FaceLines(corners[at..]))
         == written + FaceLine(corners[at], corners[at + 1], corners[at + 2]) + "\n" +
            Joined(FaceLines(corners[at + 3..]))
  {
    assert corners[at..][3..] == corners[at + 3..];
    JoinedLine(written, FaceLine(corners[at], corners[at + 1], corners[at + 2]), FaceLines(corners[at + 3..]));
    hide Joined, FaceLine;
  }

  method WriteFaces(corners: seq<Corner>, text: string) returns (r: string)
    ensures r == text + Joined(FaceLines(corners))
  {
    hide Joined, FaceLines, FaceLine;
    r := text;
    var at := 0;
    assert corners[0..] == corners;
    while at + 3 <= |corners|
      invariant at <= |corners|
      invariant text + Joined(FaceLines(corners)) == r + Joined(FaceLines(corners[at..]))
      decreases |corners| - at
    {
      FacesNext(corners, at, r);
      r := r + FaceLine(corners[at], corners[at + 1], corners[at + 2]) + "\n";
      at := at + 3;
    }
    NoFaceLines(corners[at..]);
  }

  lemma {:induction false} JoinedConcat(a: seq<string>, b: seq<string>)
    ensures Joined(a + b) == Joined(a) + Joined(b)
  {
    if a == [] {
      assert a + b == b;
    } else {
      assert (a + b)[1..] == a[1..] + b;
      JoinedConcat(a[1..], b);
    }
  }

  method Binobj2Obj(f: Floats, data: seq<Byte>) returns (text: Option<string>)
    ensures text == Decoded(f, data)
  {
    hide FloatLines, FaceLines, SectionAt, CornersAt, Joined;
    var reader := new BinobjReader(data);
    var positions := reader.ReadFloats();
    if positions.None? { return None; }
    var uvs := reader.ReadFloats();
    if uvs.None? { return None; }
    var normals := reader.ReadFloats();
    if normals.None? { return None; }
    var corners := reader.ReadCorners();
    if corners.None? { return None; }
    ghost var m := Model(positions.value, uvs.value, normals.value, corners.value);
    assert Read(data) == Some(m);
    hide Read;
    var r := Joined(f.header);
    r := WriteFloats(f, Positions, positions.value, r);
    r := WriteFloats(f, Uvs, uvs.value, r);
    r := WriteFloats(f, Normals, normals.value, r);
    r := WriteFaces(corners.value, r);
    ghost var l1, l2 := FloatLines(f, Positions, positions.value), FloatLines(f, Uvs, uvs.value);
    ghost var l3, l4 := FloatLines(f, Normals, normals.value), FaceLines(corners.value);
    JoinedConcat(f.header, l1 + (l2 + (l3 + l4)));
    JoinedConcat(l1, l2 + (l3 + l4));
    JoinedConcat(l2, l3 + l4);
    JoinedConcat(l3, l4);
    assert r == Joined(f.header) + (Joined(l1) + (Joined(l2) + (Joined(l3) + Joined(l4))));
    assert Printed(f, m) == f.header + (l1 + (l2 + (l3 + l4)));
    text := Some(r);
  }
}
