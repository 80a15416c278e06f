# projeto-war: OBJ reader, territory record and image quad, in Dafny

This project models three pieces of the projeto-war board game's browser client and proves properties about them:

- **`IndexedMeshT`** (`src/webgl/indexed-mesh.js`)
  - The reading loop of `loadMeshFromObj` sorts the lines of a Wavefront OBJ text by prefix:
    - `vn` lines go to the normals;
    - `vt` lines go to the texture coordinates;
    - the remaining `v` lines go to the positions;
    - `f` lines go to the face indexes.
  - The type and shader guards of `addAttribute`.
  - The registrations `loadMeshFromObj` makes once reading is done, and its call of the image loader, which fails.
  - The `dotProduct` fold.
- **`Country`** (`src/model/map/territories/country.js`)
  - A territory: name, mesh path and neighbours are fixed; owner, soldier count and continent are set by setters.
  - The linear search `findNeighbor`.
- **`ImageGL`** (`src/view/image.js`)
  - The aspect-correct two-triangle quad of `#createRect`.
  - The `scaleX`, `scaleY` and `scale` setters and their argument guards.
  - The module-level `multiplyMatWithVec`.

Modules:

- `Js` (`js.dfy`) models JavaScript numbers and values as the code observes them:
  - a number is `Fin(r)` over the reals, or `NaN`;
  - NaN absorbs arithmetic;
  - reading past the end of an array gives `undefined`, which arithmetic turns into NaN.
- `JsStrings` (`js_strings.dfy`) gives the ECMAScript meaning of the string methods the reader uses:
  - `startsWith`;
  - `indexOf`;
  - `replace` with a string pattern, which removes only the first occurrence;
  - `slice(0, end)`, where a negative end counts from the back;
  - `split` on one character.
- `IndexedMesh` (`indexed_mesh.dfy`):
  - `ReadObj` is the imperative loop. It is proved equal to the specification fold `ParseLines`.
  - `ParseLines` is characterised per output array by the reference definition `StreamOf`.
  - The mesh is a class `IndexedMeshT` whose `attributes` field records the `setAttribute` calls.
- `Territories` (`country.dfy`): the class `Country`, and a minimal class `Continent`.
- `Image` (`image.dfy`): the quad, the matrix-vector product, and the class `ImageGL`.

Number parsing (`Number.parseFloat`, `Number.parseInt`) and the shader lookup (`getAttribLocation`) are passed in as total functions. A texture path is an `Option<string>`; it is truthy when present and non-empty.

## Model

| member | source | states |
|---|---|---|
| IndexedMesh.ReadObj | src/webgl/indexed-mesh.js:92-130 | the four arrays the loop builds from `text.split("\n")` are exactly `ParseLines` of those lines: each line's record appended in line order, with the prefix tests in the order vn, vt, v, f |
| IndexedMesh.LineRecordFeeds | src/webgl/indexed-mesh.js:102-128 | one line adds to an array exactly when its prefix selects that array (a `vn` or `vt` line never feeds positions), and it adds nothing to the others; a line feeds at most one array |
| IndexedMesh.SampleShape | src/webgl/indexed-mesh.js:103-127 | a `v`/`vn` line with k fields adds k+1 numbers: the parsed fields, then 1; a `vt` line adds exactly its k parsed fields; an `f` line with t tokens adds t indexes, one per token in order |
| IndexedMesh.FaceIndexSpec | src/webgl/indexed-mesh.js:122-126 | a face token gives parseInt of the characters before its first `/`, minus 1; a token without `/` loses its last character before parsing (`slice(0, -1)`) |
| IndexedMesh.FaceTokenExamples | src/webgl/indexed-mesh.js:123-125 | "3/1/2" gives parseInt("3") − 1, "12" gives parseInt("1") − 1, "" gives parseInt("") − 1 |
| IndexedMesh.ParseLinesStreams | src/webgl/indexed-mesh.js:101-130 | each output array equals the concatenation, in line order, of the samples of the lines of its own kind |
| IndexedMesh.ParseLinesAppend | src/webgl/indexed-mesh.js:101-130 | reading `a + b` gives the array-wise concatenation of reading `a` and reading `b` |
| IndexedMesh.OtherLineIgnored | src/webgl/indexed-mesh.js:101-130 | a line matching none of the four prefixes leaves all four arrays unchanged, wherever it stands |
| IndexedMesh.CheckInfo | src/webgl/indexed-mesh.js:18-24 | rejects a non-array as not an array; rejects an array with a non-number element as not numeric; accepts exactly the arrays of numbers |
| IndexedMesh.NumberArrayNumeric | src/webgl/indexed-mesh.js:135-142 | an array built from the reader's numbers passes both type checks, and its numbers are passed on unchanged |
| IndexedMesh.IndexedMeshT.AddAttribute | src/webgl/indexed-mesh.js:17-31 | the checks run in order: array, then numeric, then shader location −1; on success exactly one `setAttribute(info, pointDim, name)` is recorded, with pointDim 4 by default; on failure nothing is recorded |
| IndexedMesh.RegisterObjAttributes | src/webgl/indexed-mesh.js:135-142 | registers position, then normal, each with dimension 4; when there are texture coordinates, it demands a truthy texture path and registers them with dimension 3; the error is the first failing step |
| IndexedMesh.BuildMeshFromObj | src/webgl/indexed-mesh.js:92-142 | up to the texture-coordinate registration: on success, a fresh mesh on the parsed face indexes with the registrations of the parsed arrays; otherwise no mesh, and the error is the first failing step; `textured` tells whether there were texture coordinates |
| IndexedMesh.LoadMeshFromObj | src/webgl/indexed-mesh.js:92-144 | as written: the registration outcome, and then, for a textured mesh, the rejection thrown by the call `ImageGL.loadImage` at line 144; a mesh comes back exactly when there is no error, and then it carries the parsed indexes and registrations |
| IndexedMesh.TexturedLoadAlwaysFails | src/webgl/indexed-mesh.js:138-144 | a text with texture coordinates never loads: it fails at registration or, if registration succeeds, at the `loadImage` call |
| IndexedMesh.IndexedMeshT.constructor | src/webgl/indexed-mesh.js:11-15 | the mesh keeps the shader's attribute locations and the face indexes, and has passed on no attribute yet |
| IndexedMesh.RegistrationErrorCauses | src/webgl/indexed-mesh.js:134-142 | registration fails only on a missing shader attribute or a missing texture path; the texture path is demanded exactly when the shader has position and normal and the text has texture coordinates; registration succeeds exactly when the shader has every attribute used and a textured mesh has a truthy path |
| IndexedMesh.DotProductIsSum | src/webgl/indexed-mesh.js:153-155 | for finite vectors with \|v1\| ≤ \|v2\|, the left fold from 0 is Σ_{i<\|v1\|} v1[i]·v2[i]; when v2 is shorter the result is NaN |
| IndexedMesh.DotProductNaN | src/webgl/indexed-mesh.js:153-155 | a NaN component of v1 makes the result NaN |
| IndexedMesh.DotProductSelfNonNegative | src/webgl/indexed-mesh.js:106 | `dotProduct(values, values)`, whose square root is taken, is finite and non-negative for finite values |
| JsStrings.IndexOfSpec | src/webgl/indexed-mesh.js:123 | `indexOf` is −1 exactly when the pattern occurs nowhere; otherwise it is the first position where it occurs |
| JsStrings.ReplaceFirstSpec | src/webgl/indexed-mesh.js:103 | `replace(p, "")` leaves a string without `p` unchanged; otherwise it removes `p` at its first occurrence only |
| JsStrings.SplitSpec | src/webgl/indexed-mesh.js:92 | `split(c)` yields one more piece than there are separators (empty pieces included), and no piece contains the separator |
| JsStrings.SplitJoin | src/webgl/indexed-mesh.js:92 | joining the pieces of `split(c)` with `c` gives back the string |
| Territories.Country.constructor | src/model/map/territories/country.js:14-22 | name, path and neighbours are stored unchanged; there is no owner and there are 0 soldiers; through the continent setter, the country is appended to the continent's countries |
| Territories.Country.SetContinent | src/model/map/territories/country.js:52-55 | the continent field becomes `c`, this country is appended to `c`'s countries, and owner and soldiers are unchanged |
| Territories.Country.SetOwner | src/model/map/territories/country.js:57-59 | the owner is replaced; soldiers and continent are unchanged |
| Territories.Country.SetSoldiers | src/model/map/territories/country.js:61-63 | the soldier count is replaced; owner and continent are unchanged |
| Territories.Country.FindNeighbor | src/model/map/territories/country.js:66-73 | the result lies in [−1, \|neighbors\|); it is −1 exactly when the name is not a neighbour; otherwise it is the smallest index holding the name |
| Image.RectLayout | src/view/image.js:106-114 | the quad has 24 coordinates, forming the triangles (v1, v2, v3) and (v1, v3, v4) over the corners (−w,−h), (w,−h), (w,h), (−w,h); every vertex has z = 0 and w = 1; there are 12 texture coordinates |
| Image.AspectCorrect | src/view/image.js:96-104 | for a positive size, the half extents keep the image's aspect ratio (w·height = h·width) and both lie in (0, 1]; the half-height is 1 when width < height, and the half-width is 1 otherwise |
| Image.RectCounterClockwise | src/view/image.js:106-114 | for a positive size, both triangles wind counter-clockwise |
| Image.RectTexCoordsMatchCorners | src/view/image.js:106-119 | each vertex gets the texture corner of its own quad corner, with v running downwards: x = w(2u − 1) and y = h(1 − 2v) |
| Image.ImageGL.CreateRect | src/view/image.js:95-125 | returns the quad of `Rect(width, height)` and records its half extents in `#width` and `#height` |
| Image.MultiplyMatWithVec | src/view/image.js:152-163 | no result unless \|mat\| = \|vec\|²; otherwise \|vec\| entries, where entry i is the fold of `out[i] += mat[j+i]*vec[j/4]` over j = 0, 4, 8, … below \|mat\| |
| Image.StrideFourPasses | src/view/image.js:159-160 | the inner loop leaves in `out[i]` the fold over all its passes and changes no other entry |
| Image.MultiplyMat4 | src/view/image.js:158-160 | for a 16-entry matrix and a 4-vector, out[i] = Σ_{k<4} mat[4k+i]·vec[k], the column-major product |
| Image.MultiplyAgreesOn4 | src/view/image.js:158-160 | in the 4×4 case, the loop as written agrees with the column-major product `ColumnMajorRow` |
| Image.StrideFourIdentityCounterexample | src/view/image.js:158-160 | through the 2×2 identity [1, 0, 0, 1], the vector (0, 1) comes out of the loop as written with second entry 0, where the product has 1 |
| Image.MultiplyColumnMajor | src/view/image.js:152-163 | the corrected product: no result unless \|mat\| = \|vec\|²; otherwise entry r is Σ_c mat[c·n + r]·vec[c], for every size n |
| Image.ColumnMajorIdentity | src/view/image.js:152-163 | the corrected product maps every vector through the identity matrix unchanged |
| Image.ImageGL.constructor | src/view/image.js:7-10 | the state once `init` has created the mesh: the mesh's scale vector, with `#width` and `#height` not yet set |
| Image.ImageGL.SetScaleX | src/view/image.js:12-17 | rejects x ≤ 0 (NaN passes the test); otherwise it sets scale[0] to x and changes nothing else |
| Image.ImageGL.SetScaleY | src/view/image.js:19-24 | rejects y ≤ 0; otherwise it sets scale[1] to y and changes nothing else |
| Image.ImageGL.SetScale | src/view/image.js:42-47 | rejects everything but an array of exactly two entries; otherwise the scale becomes (v[0], v[1], 1) |

## Left out

- The half-edge structure (`HalfEdgeDS`, `setAttribute`, `createVBOs`, vertex deduplication) is not part of this model. `setAttribute` is recorded as a call in `IndexedMeshT.attributes`.
- `createVAO`, `draw`, face culling, uniform upload and every other WebGL call are foreign calls. `getAttribLocation` is a given function.
- `fetch`, `await`, image loading and decoding, `createImageBitmap` and `createTex` are asynchronous I/O. `LoadMeshFromObj` starts from the fetched text. Its textured path ends at line 144, where the call `ImageGL.loadImage` throws (see Findings), so `createTex` is never reached.
- The `border` silhouette heuristic and the `console.log` call in the reading loop are left out: they are floating-point threshold logic whose result is never used. `dotProduct` itself is modelled.
- The `Math.round` dimension inference in `createVAO` is part of the WebGL set-up, which is left out.
- `pointCollision` depends on gl-matrix's `mat4.invert` and `mat4.multiply`, which are not part of this model.
- `loadMesh`, `init`, `#loadTex`, `loadImage` and both `draw` methods are asynchronous I/O or rendering.
- The `positionX`, `positionY`, `depth`, `rotation` and `opacity` setters and the `positionX` and `positionY` getters of `ImageGL` are left out. They only write or read through to the mesh's position and rotation vectors and its `alpha` uniform, and the mesh class is not part of this model.
- The getters of `Country` are left out: the model reads its fields directly.
- The `Continent` class is not part of this model. It is reduced to the list that `addCountry` appends to.
- The semantics of `Number.parseFloat` and `Number.parseInt` on arbitrary strings are left out; they are given total functions.
- IEEE-754 rounding, infinities and signed zero are left out: finite arithmetic is exact over the reals.
- Image.ImageGL.SetScaleX: takes a number and so does not model JavaScript's coercion of a non-number argument in `x <= 0`. The same holds for `SetScaleY`.
- Image.ImageGL.SetScale: the mesh's scale array is a value (`seq`), so aliasing between the caller's array and the mesh is not modelled; `vec3.fromValues` is taken to store the two entries as given.
- Image.ImageGL.CreateRect: requires a non-zero height, because real division by zero is undefined; JavaScript would give an infinite or NaN proportion there.
- Image.MultiplyMatWithVec: `Math.round(vec.length ** 2)` is the exact square, because lengths are whole numbers; the matrix and vector entries are finite numbers.
- Territories.Country.constructor: takes a non-null continent. In the source, a null or undefined continent makes the continent setter throw a TypeError at `continent.addCountry(this)`, so the constructor throws; that error path is not modelled.
- Territories.Country.SetContinent: takes a non-null continent. In the source, a null continent is first stored in `#continent` and then the setter throws a TypeError at `continent.addCountry(this)`; that error path is not modelled.
- JsStrings: a Dafny `string` is a sequence of Unicode characters, while a JavaScript string is a sequence of UTF-16 code units. So `indexOf`, `slice(0, -1)` and `split` differ on characters outside the Basic Multilingual Plane. For example, `slice(0, -1)` drops one code unit in JavaScript but a whole character in the model.
- Territories.Country.FindNeighbor: compares names with string equality, which models the source's `==` for string neighbours only.

## Findings

| source | as written | input that shows it | evidently intended | confidence | as-written member | corrected member |
|---|---|---|---|---|---|---|
| src/view/image.js:158-160 | the inner loop steps j by 4 and reads `mat[j+i]` and `vec[j/4]`, so it is the matrix-vector product only for 4×4 matrices, although the guard at line 155 accepts any n×n | `mat = [1, 0, 0, 1]` (2×2 identity), `vec = [0, 1]`: the loop runs once and gives `[0, 0]` instead of `[0, 1]` | the column-major n×n product, entry r = Σ_c mat[c·n + r]·vec[c] | low (the program only calls it with 4×4 matrices); not executed | Image.StrideFourIdentityCounterexample | Image.MultiplyColumnMajor |
| src/webgl/indexed-mesh.js:144 | a textured mesh calls `ImageGL.loadImage(texturePath)`, but `loadImage` is an instance method (src/view/image.js:75 has no `static`), so the call throws a TypeError and the returned promise rejects | the text `vt 0 0` with a shader that has `position`, `normal` and `texCoord` and the texture path `t.png`: it passes every registration step, then throws at line 144 | load the texture image and return the mesh with its texture | high (no other definition of `ImageGL.loadImage` is in the shown files); not executed | IndexedMesh.TexturedLoadAlwaysFails | IndexedMesh.BuildMeshFromObj |
