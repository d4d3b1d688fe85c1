# Procedural cylinder and sphere meshes, modelled in Dafny

This project models the two procedural mesh builders of a small WebGL target-shooting demo:

- the `Cylinder` class of `cylinder.js`;
- the `Sphere` class of `models/sphere.js`.

Each builder fills three buffers:

- a vertex list;
- an index list, three indices per triangle;
- a normal list, one normal per vertex.

The model covers which vertices and normals are emitted, in what order, and how the indices stitch them into triangles. It also covers the cylinder's placement vectors (translate, rotate, scale) and the setters that overwrite them.

Coordinates in the source come from floating-point `sin`/`cos`, so every point is kept symbolic. One symbolic value stands for the three numbers the source pushes for that point:

- Cylinder points:
  - `Circle(step, z)` is the point at angle `step * 360/n` degrees on the unit circle, at height `z`.
  - `FaceNormal(i)` is the unit normal at the middle angle of side face `i`.
  - `Exact(x, y, z)` is a vector with integer coordinates: the cap centres and the cap normals.
- Sphere points: `GridPoint(j, i)` is grid point `(j, i)`, at latitude step `j` and longitude step `i`.

The flat numeric buffers are three times as long as the symbolic lists.

Structure:

- `mesh_buffers.dfy` (module `MeshBuffers`): the `Uint16Array` conversion and the triangle vocabulary (non-degenerate, directed edge).
- `cylinder.dfy` (module `CylinderMesh`):
  - Each of the constructor's `for` loops is a method that appends to a buffer.
  - Each such method is proved equal to a recursive specification function.
  - Lemmas give the closed-form layout, the counts, the bounds, the cap coverage and the winding.
  - The class `Cylinder` holds the buffers and the placement arrays.
- `sphere.dfy` (module `SphereMesh`): the same shape. `CreateVertices` and `CreateIndices` are static methods with nested loops, proved against recursive row-by-row specifications.

The cap loops' seam quirks are modelled exactly as written:

- the top-cap loop's first pass emits two triangles, and it breaks at `i == n-1`;
- the bottom-cap loop bumps its own counter at `i == 0`, so the pass for `i == 1` never runs, and it breaks after emitting two triangles at `i == n-1`.

Both caps still end up with exactly `n` triangles. The top cap walks each rim edge from step `k` to step `k+1`, and the bottom cap walks it from `k+1` to `k`.

Each cap gets `n` triangles (`3n` indices), so the index buffer holds `12n` indices in all: `6n` for the sides and `3n` for each cap.

The code checks neither `n` nor the 16-bit range of the indices:

- The model takes `n >= 3` (cylinder) and `n >= 1` (sphere) as preconditions.
- It models the `Uint16Array` conversion as reduction modulo 2^16, which is what the conversion does. Lemmas show that this reduction changes nothing while every index fits.

## Model

| member | source | states |
|---|---|---|
| `MeshBuffers.ToUint16` | cylinder.js:216 | the converted value is the unique number in [0, 2^16) congruent to the index modulo 2^16 |
| `MeshBuffers.Uint16Array` | models/sphere.js:11 | converting an index list keeps its length and replaces each index by its residue modulo 2^16 (`ToUint16`) |
| `MeshBuffers.Uint16ArrayKeepsSmallIndices` | cylinder.js:216 | if every index is in [0, 2^16), the conversion returns the list unchanged |
| `CylinderMesh.Next` | cylinder.js:35-55 | the right edge of the last face wraps to step 0: the next step is (k+1) mod n, in [0, n) |
| `CylinderMesh.SideVertices` | cylinder.js:32-80 | k side faces contribute 4k vertices |
| `CylinderMesh.RimVertices` | cylinder.js:84-96 | a rim of k steps contributes k vertices |
| `CylinderMesh.Vertices` | cylinder.js:32-100 | the vertex list holds 6n+2 points (18n+6 numbers) |
| `CylinderMesh.PushSideVertices` | cylinder.js:32-80 | the side loop, including its last-face branch, appends exactly the corners of faces 0..n-1 |
| `CylinderMesh.PushRimVertices` | cylinder.js:84-96 | each rim loop appends the rim points of steps 0..n-1 at its height |
| `CylinderMesh.SideVerticesAt` | cylinder.js:35-79 | slot 4i+c of the side vertices is corner c of face i |
| `CylinderMesh.RimVerticesAt` | cylinder.js:84-96 | rim slot s is the point at step s |
| `CylinderMesh.VertexLayout` | cylinder.js:32-100 | the layout: faces at 0..4n-1, top rim at 4n..5n-1 (z=1), bottom rim at 5n..6n-1 (z=0), top centre at 6n, bottom centre at 6n+1 |
| `CylinderMesh.SideCornersOnRims` | cylinder.js:35-96 | face i's corners are at steps ((i+1) mod n, i, i, (i+1) mod n) with heights (1,1,0,0), and each repeats the position of a top-rim or bottom-rim vertex |
| `CylinderMesh.SideIndices` | cylinder.js:106-116 | k faces contribute 6k indices, all below 4k |
| `CylinderMesh.TopLow` | cylinder.js:120-140 | the lower rim step of each top-cap triangle is a valid step in [0, n) |
| `CylinderMesh.TopCap` | cylinder.js:120-140 | k top-cap triangles contribute 3k indices, each a top-rim vertex or the top centre |
| `CylinderMesh.BottomCap` | cylinder.js:143-168 | k bottom-cap triangles contribute 3k indices, each a bottom-rim vertex or the bottom centre |
| `CylinderMesh.Indices` | cylinder.js:106-168 | the index list has exactly 12n entries, and every index is below the vertex count 6n+2 |
| `CylinderMesh.PushSideIndices` | cylinder.js:106-116 | the side index loop appends (4i,4i+1,4i+2,4i+2,4i+3,4i) for every face i |
| `CylinderMesh.PushTopCapIndices` | cylinder.js:120-140 | the top-cap loop, with its two-triangle first pass and its break at i = n-1, appends exactly n fan triangles |
| `CylinderMesh.PushBottomCapIndices` | cylinder.js:143-168 | the bottom-cap loop, with its own `i++` that skips i = 1 and its break at i = n-1, appends exactly n fan triangles |
| `CylinderMesh.SideIndicesAt` | cylinder.js:106-116 | slots 6i..6i+5 of the side indices are face i's six indices |
| `CylinderMesh.TopCapAt` | cylinder.js:120-140 | slots 3t..3t+2 of the top cap are its t-th triangle |
| `CylinderMesh.BottomCapAt` | cylinder.js:143-168 | slots 3t..3t+2 of the bottom cap are its t-th triangle |
| `CylinderMesh.SideFaceTriangles` | cylinder.js:106-116 | face i's triangles are (4i,4i+1,4i+2) and (4i+2,4i+3,4i), inside its own block [4i, 4i+3]; they cross the shared diagonal in opposite directions |
| `CylinderMesh.TopCapSlots` | cylinder.js:120-140 | top-cap triangle t is at index slots 6n+3t..6n+3t+2 |
| `CylinderMesh.BottomCapSlots` | cylinder.js:143-168 | bottom-cap triangle t is at index slots 9n+3t..9n+3t+2 |
| `CylinderMesh.TopTriangleShape` | cylinder.js:120-140 | each top-cap triangle has the top centre 6n in the middle and two distinct adjacent top-rim vertices in [4n, 5n), in decreasing cyclic order, both at height 1 |
| `CylinderMesh.BottomTriangleShape` | cylinder.js:143-168 | each bottom-cap triangle has the bottom centre 6n+1 in the middle and two distinct adjacent bottom-rim vertices in [5n, 6n), in increasing cyclic order, both at height 0 |
| `CylinderMesh.TopCapCoversEachRimEdgeOnce` | cylinder.js:120-140 | for every rim step k exactly one top-cap triangle spans the edge from k to k+1 |
| `CylinderMesh.BottomCapCoversEachRimEdgeOnce` | cylinder.js:143-168 | for every rim step k exactly one bottom-cap triangle spans the edge from k to k+1 |
| `CylinderMesh.CapsWindOppositely` | cylinder.js:120-168 | over every rim edge the top cap runs k to k+1 and never back, and the bottom cap runs k+1 to k and never forward |
| `CylinderMesh.IndicesFitUint16` | cylinder.js:216 | when 6n+2 <= 65536, the Uint16Array conversion keeps every cylinder index |
| `CylinderMesh.Copies` | cylinder.js:183-201 | k pushes of one normal give a list of length k whose every entry is that normal |
| `CylinderMesh.SideNormals` | cylinder.js:176-188 | k faces contribute 4k normals |
| `CylinderMesh.FlatNormals` | cylinder.js:176-207 | the flat normal list has 6n+2 entries |
| `CylinderMesh.PushSideNormals` | cylinder.js:176-188 | the side normal loop and its inner loop append face i's normal four times, for every face |
| `CylinderMesh.PushCapNormals` | cylinder.js:192-201 | each cap normal loop appends n copies of its cap normal |
| `CylinderMesh.SideNormalsAt` | cylinder.js:176-188 | side normal slot p is the normal of face p/4 |
| `CylinderMesh.FlatNormalLayout` | cylinder.js:176-207 | one normal per vertex: face normals repeated four times, n×(0,0,1), n×(0,0,-1), then (0,0,1) and (0,0,-1) for the centres |
| `CylinderMesh.CapNormalsPointOutward` | cylinder.js:189-207 | every rim or centre vertex at height 1 gets normal (0,0,1); every one at height 0 gets (0,0,-1) |
| `CylinderMesh.NormalsMatchVertices` | cylinder.js:210-213 | the normal list is always as long as the vertex list, and equals it element for element exactly when the shading is "smooth" |
| `CylinderMesh.BuildVertices` | cylinder.js:30-100 | the vertex section of the constructor produces exactly the vertex list |
| `CylinderMesh.BuildIndices` | cylinder.js:101-168 | the index section of the constructor produces exactly the index list |
| `CylinderMesh.BuildFlatNormals` | cylinder.js:171-207 | the normal section of the constructor produces exactly the flat normal list |
| `CylinderMesh.Cylinder.constructor` | cylinder.js:4-224 | the new cylinder holds the vertex list, the 16-bit index list, and either the positions (smooth) or the flat normals; translate and rotate are (0,0,0), scale is (1,1,1), in three fresh arrays |
| `CylinderMesh.Cylinder.SetScale` | cylinder.js:228-233 | scale becomes (x,y,z); rotate, translate and the three buffers are unchanged |
| `CylinderMesh.Cylinder.SetRotate` | cylinder.js:235-240 | rotate becomes (x,y,z); scale, translate and the three buffers are unchanged |
| `CylinderMesh.Cylinder.SetTranslate` | cylinder.js:242-247 | translate becomes (x,y,z); scale, rotate and the three buffers are unchanged |
| `SphereMesh.GridRow` | models/sphere.js:27-35 | the inner vertex loop emits k points per row prefix |
| `SphereMesh.GridRows` | models/sphere.js:23-36 | k rows contribute k(n+1) points |
| `SphereMesh.GridVertices` | models/sphere.js:19-39 | the vertex list holds (n+1)^2 points |
| `SphereMesh.CellRow` | models/sphere.js:46-57 | k cells of a row contribute 6k indices |
| `SphereMesh.CellRows` | models/sphere.js:45-58 | k rows of cells contribute 6nk indices |
| `SphereMesh.GridIndices` | models/sphere.js:41-61 | the index list holds exactly 6n^2 indices |
| `SphereMesh.GridRowAt` | models/sphere.js:27-35 | slot i of row j is grid point (j, i) |
| `SphereMesh.GridRowsAt` | models/sphere.js:23-36 | slot j(n+1)+i of the first rows is grid point (j, i) |
| `SphereMesh.GridVerticesRowMajor` | models/sphere.js:23-36 | grid point (j, i) is point number j(n+1)+i: outer loop j, inner loop i |
| `SphereMesh.CellRowAt` | models/sphere.js:46-57 | slots 6i..6i+5 of row j's cells are cell (j, i)'s indices |
| `SphereMesh.CellRowsAt` | models/sphere.js:45-58 | slots 6(jn+i)..6(jn+i)+5 of the first cell rows are cell (j, i)'s indices |
| `SphereMesh.CellSlots` | models/sphere.js:45-58 | cell (j, i) occupies index slots 6(jn+i) through 6(jn+i)+5 |
| `SphereMesh.CellCorners` | models/sphere.js:47-56 | cell (j, i)'s indices p1, p2, p1+1, p2+1 name grid points (j,i), (j+1,i), (j,i+1), (j+1,i+1), so each triangle spans exactly rows j and j+1 |
| `SphereMesh.CellTriangles` | models/sphere.js:50-56 | each cell triangle has three distinct indices; the two triangles share exactly the diagonal p1+1–p2 and cross it in opposite directions |
| `SphereMesh.CellRowInRange` | models/sphere.js:46-57 | every index of a row of cells is in [0, (n+1)^2) |
| `SphereMesh.CellRowsInRange` | models/sphere.js:45-58 | every index of the first cell rows is in [0, (n+1)^2) |
| `SphereMesh.GridIndicesInRange` | models/sphere.js:45-58 | every sphere index lies in [0, (n+1)^2-1], and the last one, p2+1 of cell (n-1, n-1), reaches (n+1)^2-1 |
| `SphereMesh.GridIndicesFitUint16` | models/sphere.js:11 | when (n+1)^2 <= 65536, the Uint16Array conversion keeps every sphere index |
| `SphereMesh.Sphere.constructor` | models/sphere.js:2-17 | the new sphere holds the grid vertices, the 16-bit index list, and normals equal to the vertex list |
| `SphereMesh.Sphere.CreateVertices` | models/sphere.js:19-39 | the nested loops return the (n+1)^2 grid points in row-major order |
| `SphereMesh.Sphere.CreateIndices` | models/sphere.js:41-61 | the nested loops return the six indices of every cell, cell rows in order |

## Left out

- `camera.js` is not part of this model. All of it is floating-point vector and matrix maths through a vector library that is not shown, or browser animation and DOM plumbing.
- `shooter.js` is not part of this model. It holds shader source, WebGL buffer and uniform plumbing, keyboard, pointer-lock and audio handlers, random target placement, and a floating-point hit test.
- Real coordinates are not modelled:
  - the `cos`, `sin` and `degToRad` helpers of `cylinder.js`;
  - `Math.sin`/`Math.cos` in `models/sphere.js`;
  - the `normalize` call on side normals.

  Points are symbolic, as described above, so facts that need real numbers are not stated. Examples: the sphere's points have unit length; the grid's last column and its pole rows coincide geometrically.
- `Float32Array` rounding is not modelled: positions and normals pass through unchanged.
- `parseInt(n)` is not modelled: `n` is taken to be an integer already.
- Sizes the code does not guard are not modelled: `n < 3` for the cylinder, where `n = 2` makes the bottom cap use index 6n (the top centre), and `n < 1` for the sphere. They are preconditions.
- `avgVector` is not modelled: nothing calls it.
- The `Model` base class of `Sphere` is not part of this model. That includes its handling of `color` and any setters it provides, so the sphere constructor takes only `n`.
- The cylinder's `vert_fl`, `ind_fl` and `nor_fl` fields are not modelled: they are second names for the same typed arrays. The `this.type;` statements, which have no effect, are not modelled either.
- In smooth mode `this.normals = this.vertices` briefly makes both fields the same JavaScript array. The typed-array conversion that follows copies them, so the model treats the buffers as values. That transient aliasing is not captured.
- The setters' arguments are modelled as reals. JavaScript stores whatever value is passed.
