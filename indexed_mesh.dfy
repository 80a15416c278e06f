/** The Wavefront OBJ reading loop of `IndexedMeshT.loadMeshFromObj`, the
    argument checks of `addAttribute`, and `dotProduct`. The half-edge
    structure that receives the attributes is not part of this model: the
    mesh records what it hands over to it. */
module IndexedMesh {
  import opened Js
  import opened JsStrings

  // ---------------------------------------------------------------------------
  // OBJ records
  // ---------------------------------------------------------------------------

  /** The four arrays the reading loop pushes into. */
  datatype ObjData = ObjData(vertices: seq<Num>, normals: seq<Num>, texCoords: seq<Num>, indexes: seq<Num>)

  const NoData := ObjData([], [], [], [])

  /** The four output arrays, named. */
  datatype Stream = Positions | Normals | TexCoords | Faces

  function Field(d: ObjData, s: Stream): seq<Num>
  {
    match s
    case Positions => d.vertices
    case Normals => d.normals
    case TexCoords => d.texCoords
    case Faces => d.indexes
  }

  /** Array by array concatenation. */
  function Concat(a: ObjData, b: ObjData): ObjData
  {
    ObjData(a.vertices + b.vertices, a.normals + b.normals, a.texCoords + b.texCoords, a.indexes + b.indexes)
  }

  lemma ConcatAssoc(x: ObjData, y: ObjData, z: ObjData)
    ensures Concat(Concat(x, y), z) == Concat(x, Concat(y, z))
  {
    assert x.vertices + y.vertices + z.vertices == x.vertices + (y.vertices + z.vertices);
    assert x.normals + y.normals + z.normals == x.normals + (y.normals + z.normals);
    assert x.texCoords + y.texCoords + z.texCoords == x.texCoords + (y.texCoords + z.texCoords);
    assert x.indexes + y.indexes + z.indexes == x.indexes + (y.indexes + z.indexes);
  }

  /** The space-separated fields of a record line once its tag is removed. */
  function Fields(line: string, tag: string): seq<string>
  {
    Split(ReplaceFirst(line, tag), ' ')
  }

  /** `fields.map(Number.parseFloat)`. */
  function ParseAll(fields: seq<string>, parseFloat: string -> Num): seq<Num>
  {
    seq(|fields|, k requires 0 <= k < |fields| => parseFloat(fields[k]))
  }

  lemma IndexOfChar(s: string, c: char)
    ensures IndexOf(s, [c]) == -1 <==> c !in s
    ensures IndexOf(s, [c]) != -1 ==> s[IndexOf(s, [c])] == c && c !in s[..IndexOf(s, [c])]
  {
    IndexOfSpec(s, [c]);
    var r := IndexOf(s, [c]);
    if r == -1 {
      forall j | 0 <= j < |s| ensures s[j] != c {
        assert !OccursAt(s, [c], j);
        assert s[j..j + 1] == [s[j]];
      }
    } else {
      assert s[r..r + 1] == [c];
      assert s[r] == s[r..r + 1][0];
      forall j | 0 <= j < r ensures s[..r][j] != c {
        assert !OccursAt(s, [c], j);
        assert s[j..j + 1] == [s[j]];
      }
    }
  }

  /** The 0-based position index of one face token (`p`, `p/t` or `p/t/n`):
      the characters before the first `/`, parsed, minus one. A token without
      `/` makes `indexOf` return -1, and `slice(0, -1)` then drops the token's
      last character. */
  function FaceIndex(token: string, parseInt: string -> Num): Num
  {
    var init := IndexOf(token, "/");
    Sub(parseInt(SliceTo(token, init)), Fin(1.0))
  }

  /** A face token with a `/` gives the parsed characters before its first
      `/`, minus one; a token without one gives its characters but the last,
      parsed, minus one. */
  lemma FaceIndexSpec(token: string, parseInt: string -> Num)
    ensures '/' in token ==>
              var p := IndexOf(token, "/");
              0 <= p < |token| && token[p] == '/' && '/' !in token[..p] &&
              FaceIndex(token, parseInt) == Sub(parseInt(token[..p]), Fin(1.0))
    ensures '/' !in token ==>
              FaceIndex(token, parseInt) == Sub(parseInt(token[..if |token| == 0 then 0 else |token| - 1]), Fin(1.0))
  {
    IndexOfChar(token, '/');
    IndexOfSpec(token, "/");
  }

  /** The `map` over the tokens of a face line. */
  function FaceIndexes(tokens: seq<string>, parseInt: string -> Num): seq<Num>
  {
    seq(|tokens|, k requires 0 <= k < |tokens| => FaceIndex(tokens[k], parseInt))
  }

  /** Which output array a line feeds, tested independently of the order of
      the tests in the loop. */
  predicate Feeds(line: string, s: Stream)
  {
    match s
    case Normals => StartsWith(line, "vn")
    case TexCoords => StartsWith(line, "vt")
    case Positions => StartsWith(line, "v") && !StartsWith(line, "vn") && !StartsWith(line, "vt")
    case Faces => StartsWith(line, "f")
  }

  /** What a line of the kind `s` contributes to the array of that kind. */
  function Sample(line: string, s: Stream, parseFloat: string -> Num, parseInt: string -> Num): seq<Num>
  {
    match s
    case Normals => ParseAll(Fields(line, "vn "), parseFloat) + [Fin(1.0)]
    case TexCoords => ParseAll(Fields(line, "vt "), parseFloat)
    case Positions => ParseAll(Fields(line, "v "), parseFloat) + [Fin(1.0)]
    case Faces => FaceIndexes(Fields(line, "f "), parseInt)
  }

  /** A `v` or `vn` line with k fields adds k + 1 numbers, the parsed fields
      followed by 1; a `vt` line adds exactly its k parsed fields; an `f` line
      with t tokens adds t indexes, one per token. */
  lemma SampleShape(line: string, s: Stream, parseFloat: string -> Num, parseInt: string -> Num)
    ensures var r := Sample(line, s, parseFloat, parseInt);
            s == Normals ==>
              var f := Fields(line, "vn ");
              |r| == |f| + 1 && r[|f|] == Fin(1.0) && forall k :: 0 <= k < |f| ==> r[k] == parseFloat(f[k])
    ensures var r := Sample(line, s, parseFloat, parseInt);
            s == Positions ==>
              var f := Fields(line, "v ");
              |r| == |f| + 1 && r[|f|] == Fin(1.0) && forall k :: 0 <= k < |f| ==> r[k] == parseFloat(f[k])
    ensures var r := Sample(line, s, parseFloat, parseInt);
            s == TexCoords ==>
              var f := Fields(line, "vt ");
              |r| == |f| && forall k :: 0 <= k < |f| ==> r[k] == parseFloat(f[k])
    ensures var r := Sample(line, s, parseFloat, parseInt);
            s == Faces ==>
              var f := Fields(line, "f ");
              |r| == |f| && forall k :: 0 <= k < |f| ==> r[k] == FaceIndex(f[k], parseInt)
  {
  }

  /** What one line adds to the four arrays: one pass of the loop body, whose
      tests run in the order `vn`, `vt`, `v`, `f`. */
  function LineRecord(line: string, parseFloat: string -> Num, parseInt: string -> Num): ObjData
  {
    if StartsWith(line, "vn") then
      ObjData([], Sample(line, Normals, parseFloat, parseInt), [], [])
    else if StartsWith(line, "vt") then
      ObjData([], [], Sample(line, TexCoords, parseFloat, parseInt), [])
    else if StartsWith(line, "v") then
      ObjData(Sample(line, Positions, parseFloat, parseInt), [], [], [])
    else if StartsWith(line, "f") then
      ObjData([], [], [], Sample(line, Faces, parseFloat, parseInt))
    else
      NoData
  }

  /** The first one or two characters of a line decide which tests it passes. */
  lemma Prefixes(line: string)
    ensures StartsWith(line, "v") <==> |line| >= 1 && line[0] == 'v'
    ensures StartsWith(line, "f") <==> |line| >= 1 && line[0] == 'f'
    ensures StartsWith(line, "vn") <==> |line| >= 2 && line[0] == 'v' && line[1] == 'n'
    ensures StartsWith(line, "vt") <==> |line| >= 2 && line[0] == 'v' && line[1] == 't'
  {
    if |line| >= 1 { assert line[..1] == [line[0]]; }
    if |line| >= 2 { assert line[..2] == [line[0], line[1]]; }
  }

  /** Because of the order of the tests, a line feeds only the array its
      prefix selects (a `vn` or `vt` line never feeds the positions) and at
      most one array. */
  lemma LineRecordFeeds(line: string, parseFloat: string -> Num, parseInt: string -> Num)
    ensures forall s :: Field(LineRecord(line, parseFloat, parseInt), s) ==
                        if Feeds(line, s) then Sample(line, s, parseFloat, parseInt) else []
    ensures forall s, t :: Feeds(line, s) && Feeds(line, t) ==> s == t
  {
    Prefixes(line);
  }

  /** The arrays after the loop has processed `lines`, one line after the other. */
  function ParseLines(lines: seq<string>, parseFloat: string -> Num, parseInt: string -> Num): ObjData
  {
    if |lines| == 0 then NoData
    else Concat(ParseLines(lines[..|lines| - 1], parseFloat, parseInt), LineRecord(lines[|lines| - 1], parseFloat, parseInt))
  }

  /** Reference definition of one output array: the contributions of the lines
      of that kind, in line order. */
  function StreamOf(lines: seq<string>, s: Stream, parseFloat: string -> Num, parseInt: string -> Num): seq<Num>
  {
    if |lines| == 0 then []
    else
      var last := lines[|lines| - 1];
      StreamOf(lines[..|lines| - 1], s, parseFloat, parseInt) +
      (if Feeds(last, s) then Sample(last, s, parseFloat, parseInt) else [])
  }

  /** Each output array holds exactly the samples of the lines of its own kind,
      in the order of the lines. */
  lemma {:induction false} ParseLinesStreams(lines: seq<string>, s: Stream, parseFloat: string -> Num, parseInt: string -> Num)
    ensures Field(ParseLines(lines, parseFloat, parseInt), s) == StreamOf(lines, s, parseFloat, parseInt)
  {
    if |lines| > 0 {
      ParseLinesStreams(lines[..|lines| - 1], s, parseFloat, parseInt);
      LineRecordFeeds(lines[|lines| - 1], parseFloat, parseInt);
    }
  }

  /** Reading a text in two parts gives the concatenation of what each part gives. */
  lemma {:induction false} ParseLinesAppend(a: seq<string>, b: seq<string>, parseFloat: string -> Num, parseInt: string -> Num)
    ensures ParseLines(a + b, parseFloat, parseInt) == Concat(ParseLines(a, parseFloat, parseInt), ParseLines(b, parseFloat, parseInt))
  {
    if |b| == 0 {
      assert a + b == a;
      var d := ParseLines(a, parseFloat, parseInt);
      assert Concat(d, NoData) == d;
    } else {
      var b' := b[..|b| - 1];
      assert (a + b)[..|a + b| - 1] == a + b';
      assert (a + b)[|a + b| - 1] == b[|b| - 1];
      ParseLinesAppend(a, b', parseFloat, parseInt);
      var x := ParseLines(a, parseFloat, parseInt);
      var y := ParseLines(b', parseFloat, parseInt);
      var z := LineRecord(b[|b| - 1], parseFloat, parseInt);
      ConcatAssoc(x, y, z);
    }
  }

  /** A line that matches none of the four prefixes changes nothing, wherever it is. */
  lemma OtherLineIgnored(a: seq<string>, line: string, b: seq<string>, parseFloat: string -> Num, parseInt: string -> Num)
    requires forall s :: !Feeds(line, s)
    ensures ParseLines(a + [line] + b, parseFloat, parseInt) == ParseLines(a + b, parseFloat, parseInt)
  {
    ParseLinesAppend(a + [line], b, parseFloat, parseInt);
    ParseLinesAppend(a, b, parseFloat, parseInt);
    assert (a + [line])[..|a + [line]| - 1] == a;
    var r := LineRecord(line, parseFloat, parseInt);
    LineRecordFeeds(line, parseFloat, parseInt);
    assert Field(r, Positions) == [] && Field(r, Normals) == [] && Field(r, TexCoords) == [] && Field(r, Faces) == [];
    var d := ParseLines(a, parseFloat, parseInt);
    assert Concat(d, r) == d;
  }

  /** A face token with `/` yields the index before the slash; one without
      loses its last character. */
  lemma FaceTokenExamples(parseInt: string -> Num)
    ensures FaceIndex("3/1/2", parseInt) == Sub(parseInt("3"), Fin(1.0))
    ensures FaceIndex("12", parseInt) == Sub(parseInt("1"), Fin(1.0))
    ensures FaceIndex("", parseInt) == Sub(parseInt(""), Fin(1.0))
  {
    FaceIndexSpec("3/1/2", parseInt);
    FaceIndexSpec("12", parseInt);
    FaceIndexSpec("", parseInt);
    assert "3/1/2"[1] == '/';
    assert "3/1/2"[..1] == "3";
    assert '/' !in "12";
    assert "12"[..1] == "1";
  }

  /** One pass of the loop body, stated per branch: `after` is what the
      branch taken leaves in the four arrays. */
  lemma StepMatches(before: ObjData, line: string, after: ObjData, parseFloat: string -> Num, parseInt: string -> Num)
    requires StartsWith(line, "vn") ==> after == before.(normals := before.normals + Sample(line, Normals, parseFloat, parseInt))
    requires !StartsWith(line, "vn") && StartsWith(line, "vt") ==>
               after == before.(texCoords := before.texCoords + Sample(line, TexCoords, parseFloat, parseInt))
    requires !StartsWith(line, "vn") && !StartsWith(line, "vt") && StartsWith(line, "v") ==>
               after == before.(vertices := before.vertices + Sample(line, Positions, parseFloat, parseInt))
    requires !StartsWith(line, "vn") && !StartsWith(line, "vt") && !StartsWith(line, "v") && StartsWith(line, "f") ==>
               after == before.(indexes := before.indexes + Sample(line, Faces, parseFloat, parseInt))
    requires !StartsWith(line, "vn") && !StartsWith(line, "vt") && !StartsWith(line, "v") && !StartsWith(line, "f") ==>
               after == before
    ensures after == Concat(before, LineRecord(line, parseFloat, parseInt))
  {
    Prefixes(line);
  }

  /** The reading loop of `loadMeshFromObj`: split the text into lines and
      push each line's values into the array its prefix selects. */
  method ReadObj(text: string, parseFloat: string -> Num, parseInt: string -> Num)
    returns (vertices: seq<Num>, normals: seq<Num>, texCoords: seq<Num>, indexes: seq<Num>)
    ensures ObjData(vertices, normals, texCoords, indexes) == ParseLines(Split(text, '\n'), parseFloat, parseInt)
  {
    var lines := Split(text, '\n');
    vertices, normals, texCoords, indexes := [], [], [], [];
    for i := 0 to |lines|
      invariant ObjData(vertices, normals, texCoords, indexes) == ParseLines(lines[..i], parseFloat, parseInt)
    {
      var line := lines[i];
      ghost var before := ObjData(vertices, normals, texCoords, indexes);
      if StartsWith(line, "vn") {
        var values := ParseAll(Fields(line, "vn "), parseFloat);
        normals := normals + values + [Fin(1.0)];
      } else if StartsWith(line, "vt") {
        var values := ParseAll(Fields(line, "vt "), parseFloat);
        texCoords := texCoords + values;
      } else if StartsWith(line, "v") {
        var values := ParseAll(Fields(line, "v "), parseFloat);
        vertices := vertices + values + [Fin(1.0)];
      } else if StartsWith(line, "f") {
        var values := FaceIndexes(Fields(line, "f "), parseInt);
        indexes := indexes + values;
      }
      StepMatches(before, line, ObjData(vertices, normals, texCoords, indexes), parseFloat, parseInt);
      assert lines[..i + 1][..i] == lines[..i];
    }
    assert lines[..|lines|] == lines;
  }

  // ---------------------------------------------------------------------------
  // Attributes
  // ---------------------------------------------------------------------------

  datatype AttributeError = NotAnArray | NotNumeric | NotInShader(name: string)

  /** One `setAttribute(info, pointDim, name)` call handed to the half-edge structure. */
  datatype Attribute = Attribute(name: string, values: seq<Num>, dimension: int)

  const DefaultPointDim := 4
  const TexCoordDim := 3

  predicate NumericArray(info: Value)
  {
    info.Array? && forall k :: 0 <= k < |info.elems| ==> info.elems[k].Number?
  }

  function Numbers(info: Value): (r: seq<Num>)
    requires NumericArray(info)
    ensures NumberArray(r) == info
  {
    seq(|info.elems|, k requires 0 <= k < |info.elems| => info.elems[k].num)
  }

  /** The arrays the reader builds pass both type checks and are passed on unchanged. */
  lemma NumberArrayNumeric(s: seq<Num>)
    ensures NumericArray(NumberArray(s)) && Numbers(NumberArray(s)) == s
  {
  }

  /** The type checks `addAttribute` makes of `info`, in order: an array, then
      (the `forEach`) every element a number, stopping at the first that is not. */
  method CheckInfo(info: Value) returns (err: Option<AttributeError>)
    ensures err == Some(NotAnArray) <==> !info.Array?
    ensures err == Some(NotNumeric) <==> info.Array? && !NumericArray(info)
    ensures err == None <==> NumericArray(info)
  {
    if !info.Array? {
      return Some(NotAnArray);
    }
    var k := 0;
    while k < |info.elems|
      invariant 0 <= k <= |info.elems|
      invariant forall j :: 0 <= j < k ==> info.elems[j].Number?
    {
      if !info.elems[k].Number? {
        return Some(NotNumeric);
      }
      k := k + 1;
    }
    return None;
  }

  /** `IndexedMeshT`: the index array it was built with and the attributes it
      has passed on, in order. */
  class IndexedMeshT {
    /** `getAttribLocation(program, name)` of the mesh's shader program. */
    const attribLocation: string -> int
    /** The face indexes given to the half-edge structure. */
    const indexes: seq<Num>
    /** The `setAttribute` calls made so far. */
    var attributes: seq<Attribute>

    /** `new IndexedMeshT(gl, vertShaderSrc, fragShaderSrc, indexes)`: the
        shader program fixes the attribute locations, the indexes go to the
        half-edge structure, and no attribute has been passed on yet. */
    constructor (attribLocation: string -> int, indexes: seq<Num>)
      ensures this.attribLocation == attribLocation && this.indexes == indexes
      ensures attributes == []
    {
      this.attribLocation := attribLocation;
      this.indexes := indexes;
      attributes := [];
    }

    /** `addAttribute(name, info, pointDim = 4)`: both type checks come
        before the shader lookup, and all three before anything is passed on. */
    method AddAttribute(name: string, info: Value, pointDim: int := DefaultPointDim) returns (err: Option<AttributeError>)
      modifies this`attributes
      ensures err == (if !info.Array? then Some(NotAnArray)
                      else if !NumericArray(info) then Some(NotNumeric)
                      else if attribLocation(name) == -1 then Some(NotInShader(name))
                      else None)
      ensures attributes == if err == None then old(attributes) + [Attribute(name, Numbers(info), pointDim)]
                            else old(attributes)
    {
      err := CheckInfo(info);
      if err != None {
        return;
      }
      if attribLocation(name) == -1 {
        return Some(NotInShader(name));
      }
      attributes := attributes + [Attribute(name, Numbers(info), pointDim)];
    }
  }

  /** What `loadMeshFromObj` registers for the arrays it read. */
  function Registrations(d: ObjData): seq<Attribute>
  {
    [Attribute("position", d.vertices, DefaultPointDim), Attribute("normal", d.normals, DefaultPointDim)]
    + (if |d.texCoords| != 0 then [Attribute("texCoord", d.texCoords, TexCoordDim)] else [])
  }

  /** Why loading rejects: a refused attribute, a missing texture path, or
      the call `ImageGL.loadImage(texturePath)`, which throws because
      `loadImage` is an instance method and not a static one. */
  datatype LoadError = AttributeRejected(cause: AttributeError) | MissingTexturePath | LoadImageNotAFunction

  /** JavaScript truthiness of the optional texture path. */
  predicate Truthy(path: Option<string>)
  {
    path.Some? && path.value != ""
  }

  /** The outcome of registering the arrays `d` on a mesh whose shader
      gives the locations `attribLocation`: positions first, then normals,
      then, only when there are texture coordinates, the texture path test
      and the texture coordinates. */
  function RegistrationError(d: ObjData, attribLocation: string -> int, texturePath: Option<string>): Option<LoadError>
  {
    if attribLocation("position") == -1 then Some(AttributeRejected(NotInShader("position")))
    else if attribLocation("normal") == -1 then Some(AttributeRejected(NotInShader("normal")))
    else if |d.texCoords| != 0 && !Truthy(texturePath) then Some(MissingTexturePath)
    else if |d.texCoords| != 0 && attribLocation("texCoord") == -1 then Some(AttributeRejected(NotInShader("texCoord")))
    else None
  }

  /** The registration calls of `loadMeshFromObj` on a freshly built mesh. */
  method RegisterObjAttributes(m: IndexedMeshT, d: ObjData, texturePath: Option<string>) returns (err: Option<LoadError>)
    requires m.attributes == []
    modifies m
    ensures err == RegistrationError(d, m.attribLocation, texturePath)
    ensures err == None ==> m.attributes == Registrations(d)
  {
    NumberArrayNumeric(d.vertices);
    NumberArrayNumeric(d.normals);
    NumberArrayNumeric(d.texCoords);
    var e := m.AddAttribute("position", NumberArray(d.vertices));
    if e != None {
      return Some(AttributeRejected(e.value));
    }
    e := m.AddAttribute("normal", NumberArray(d.normals));
    if e != None {
      return Some(AttributeRejected(e.value));
    }
    if |d.texCoords| != 0 {
      if !Truthy(texturePath) {
        return Some(MissingTexturePath);
      }
      e := m.AddAttribute("texCoord", NumberArray(d.texCoords), TexCoordDim);
      if e != None {
        return Some(AttributeRejected(e.value));
      }
    }
    return None;
  }

  /** The outcome of `loadMeshFromObj` as written: the registration steps
      and then, for a mesh with texture coordinates, the failing call of
      `ImageGL.loadImage`. */
  function LoadOutcome(d: ObjData, attribLocation: string -> int, texturePath: Option<string>): Option<LoadError>
  {
    var e := RegistrationError(d, attribLocation, texturePath);
    if e != None then e
    else if |d.texCoords| != 0 then Some(LoadImageNotAFunction)
    else None
  }

  /** `loadMeshFromObj` up to the registration of the texture coordinates,
      after the text has been fetched: read the records, build the mesh on
      the face indexes, register positions and normals with the default
      dimension and, when there are texture coordinates, demand a texture
      path and register them with dimension 3. A failure yields no mesh;
      `textured` tells whether there were texture coordinates. */
  method BuildMeshFromObj(text: string, parseFloat: string -> Num, parseInt: string -> Num,
                          attribLocation: string -> int, texturePath: Option<string>)
    returns (mesh: IndexedMeshT?, err: Option<LoadError>, textured: bool)
    ensures var d := ParseLines(Split(text, '\n'), parseFloat, parseInt);
            err == RegistrationError(d, attribLocation, texturePath) && textured == (|d.texCoords| != 0)
    ensures err == None <==> mesh != null
    ensures mesh != null ==> fresh(mesh)
    ensures var d := ParseLines(Split(text, '\n'), parseFloat, parseInt);
            mesh != null ==> mesh.indexes == d.indexes && mesh.attributes == Registrations(d)
  {
    var vertices, normals, texCoords, indexes := ReadObj(text, parseFloat, parseInt);
    var m := new IndexedMeshT(attribLocation, indexes);
    err := RegisterObjAttributes(m, ObjData(vertices, normals, texCoords, indexes), texturePath);
    mesh := if err == None then m else null;
    textured := |texCoords| != 0;
  }

  /** `loadMeshFromObj` as written: after the registrations, a textured
      mesh reaches `ImageGL.loadImage(texturePath)`, which throws, so only
      a mesh without texture coordinates is ever returned. */
  method LoadMeshFromObj(text: string, parseFloat: string -> Num, parseInt: string -> Num,
                         attribLocation: string -> int, texturePath: Option<string>)
    returns (mesh: IndexedMeshT?, err: Option<LoadError>)
    ensures var d := ParseLines(Split(text, '\n'), parseFloat, parseInt);
            err == LoadOutcome(d, attribLocation, texturePath)
    ensures err == None <==> mesh != null
    ensures mesh != null ==> fresh(mesh)
    ensures var d := ParseLines(Split(text, '\n'), parseFloat, parseInt);
            mesh != null ==> mesh.indexes == d.indexes && mesh.attributes == Registrations(d)
  {
    var textured;
    mesh, err, textured := BuildMeshFromObj(text, parseFloat, parseInt, attribLocation, texturePath);
    if err == None && textured {
      mesh, err := null, Some(LoadImageNotAFunction);
    }
  }

  /** Loading as written never succeeds on a text with texture coordinates,
      whatever the shader and the texture path. */
  lemma TexturedLoadAlwaysFails(d: ObjData, attribLocation: string -> int, texturePath: Option<string>)
    requires |d.texCoords| != 0
    ensures LoadOutcome(d, attribLocation, texturePath) != None
    ensures RegistrationError(d, attribLocation, texturePath) == None ==>
              LoadOutcome(d, attribLocation, texturePath) == Some(LoadImageNotAFunction)
  {
  }

  /** The arrays the reader builds never fail the type checks: registration
      can only fail on a missing shader attribute or a missing texture path,
      and it succeeds, textured or not, exactly when the shader has the
      attributes used and a textured mesh has a texture path. */
  lemma RegistrationErrorCauses(d: ObjData, attribLocation: string -> int, texturePath: Option<string>)
    ensures var e := RegistrationError(d, attribLocation, texturePath);
            e.Some? ==> e.value == MissingTexturePath || (e.value.AttributeRejected? && e.value.cause.NotInShader?)
    ensures RegistrationError(d, attribLocation, texturePath) == None <==>
              attribLocation("position") != -1 && attribLocation("normal") != -1 &&
              (|d.texCoords| != 0 ==> Truthy(texturePath) && attribLocation("texCoord") != -1)
    ensures RegistrationError(d, attribLocation, texturePath) == Some(MissingTexturePath) <==>
              attribLocation("position") != -1 && attribLocation("normal") != -1 &&
              |d.texCoords| != 0 && !Truthy(texturePath)
  {
  }

  // ---------------------------------------------------------------------------
  // dotProduct
  // ---------------------------------------------------------------------------

  /** `v1.reduce((ac, curr, i) => ac += curr * v2[i], 0)`, from index `i` on. */
  function DotFold(v1: seq<Num>, v2: seq<Num>, i: nat, acc: Num): Num
    decreases |v1| - i
  {
    if i >= |v1| then acc else DotFold(v1, v2, i + 1, Add(acc, Mul(v1[i], At(v2, i))))
  }

  function DotProduct(v1: seq<Num>, v2: seq<Num>): Num
  {
    DotFold(v1, v2, 0, Fin(0.0))
  }

  /** Reference definition: the sum of the first `n` products, over the reals. */
  function SumProducts(v1: seq<real>, v2: seq<real>, n: nat): real
    requires n <= |v1| && n <= |v2|
  {
    if n == 0 then 0.0 else SumProducts(v1, v2, n - 1) + v1[n - 1] * v2[n - 1]
  }

  function Finite(v: seq<real>): seq<Num>
  {
    seq(|v|, k requires 0 <= k < |v| => Fin(v[k]))
  }

  lemma {:induction false} DotFoldSum(v1: seq<real>, v2: seq<real>, i: nat)
    requires i <= |v1| <= |v2|
    ensures DotFold(Finite(v1), Finite(v2), i, Fin(SumProducts(v1, v2, i))) == Fin(SumProducts(v1, v2, |v1|))
    decreases |v1| - i
  {
    if i < |v1| {
      assert Finite(v1)[i] == Fin(v1[i]) && At(Finite(v2), i) == Fin(v2[i]);
      assert SumProducts(v1, v2, i + 1) == SumProducts(v1, v2, i) + v1[i] * v2[i];
      assert Add(Fin(SumProducts(v1, v2, i)), Mul(Finite(v1)[i], At(Finite(v2), i))) == Fin(SumProducts(v1, v2, i + 1));
      DotFoldSum(v1, v2, i + 1);
    }
  }

  lemma {:induction false} DotFoldNaN(v1: seq<Num>, v2: seq<Num>, i: nat)
    ensures DotFold(v1, v2, i, NaN) == NaN
    decreases |v1| - i
  {
    if i < |v1| {
      DotFoldNaN(v1, v2, i + 1);
    }
  }

  lemma {:induction false} DotFoldShort(v1: seq<Num>, v2: seq<Num>, i: nat, acc: Num)
    requires i <= |v2| < |v1|
    ensures DotFold(v1, v2, i, acc) == NaN
    decreases |v2| - i
  {
    if i == |v2| {
      DotFoldNaN(v1, v2, i + 1);
    } else {
      DotFoldShort(v1, v2, i + 1, Add(acc, Mul(v1[i], At(v2, i))));
    }
  }

  /** `dotProduct` of finite vectors is the sum of the products of the first
      `|v1|` component pairs, folded from 0; when `v2` is shorter, reading past
      its end makes the result NaN. */
  lemma DotProductIsSum(v1: seq<real>, v2: seq<real>)
    ensures |v1| <= |v2| ==> DotProduct(Finite(v1), Finite(v2)) == Fin(SumProducts(v1, v2, |v1|))
    ensures |v1| > |v2| ==> DotProduct(Finite(v1), Finite(v2)) == NaN
  {
    if |v1| <= |v2| {
      DotFoldSum(v1, v2, 0);
    } else {
      DotFoldShort(Finite(v1), Finite(v2), 0, Fin(0.0));
    }
  }

  /** A NaN coordinate makes `dotProduct` NaN. */
  lemma {:induction false} DotProductNaN(v1: seq<Num>, v2: seq<Num>, k: nat)
    requires k < |v1| && v1[k] == NaN
    ensures DotProduct(v1, v2) == NaN
  {
    DotFoldFromNaN(v1, v2, 0, Fin(0.0), k);
  }

  lemma {:induction false} DotFoldFromNaN(v1: seq<Num>, v2: seq<Num>, i: nat, acc: Num, k: nat)
    requires i <= k < |v1| && v1[k] == NaN
    ensures DotFold(v1, v2, i, acc) == NaN
    decreases k - i
  {
    if i == k {
      DotFoldNaN(v1, v2, i + 1);
    } else {
      DotFoldFromNaN(v1, v2, i + 1, Add(acc, Mul(v1[i], At(v2, i))), k);
    }
  }

  lemma {:induction false} SumOfSquares(v: seq<real>, n: nat)
    requires n <= |v|
    ensures SumProducts(v, v, n) >= 0.0
  {
    if n > 0 {
      SumOfSquares(v, n - 1);
      assert v[n - 1] * v[n - 1] >= 0.0;
    }
  }

  /** `dotProduct(values, values)`, whose square root the reader takes, is
      never negative for finite values. */
  lemma DotProductSelfNonNegative(v: seq<real>)
    ensures DotProduct(Finite(v), Finite(v)).Fin? && DotProduct(Finite(v), Finite(v)).r >= 0.0
  {
    DotProductIsSum(v, v);
    SumOfSquares(v, |v|);
  }
}
