# Albatross front end: background geometry, particle fields, header and hero text

This project models the computational core of the Albatross web front end
and proves properties of it:

- **Wave background** (`ThreeBackground`, polyline.dfy). The `Polyline`
  class turns a list of points into the vertex buffers of a thick line:
  - `position`: every point twice.
  - `prev` and `next`: each point's neighbours. At the two ends the missing
    neighbour is mirrored through the end point.
  - `side`: -1 and +1 for the two vertices of a point.
  - `uv`: (0, v, 1, v), where v runs along the line.
  - A 16-bit `index` buffer: two triangles per segment.

  The class keeps the buffers as `array` fields. `Init` and
  `UpdateGeometry` fill them in loops, and each is proved against a
  function that gives the whole buffer contents.
- **App background** (`AppBackground`, app_background.dfy). The `Field`
  class holds the canvas size, the particle list and the connection list:
  - `CreateParticles` draws ⌊w·h/15000⌋ particles.
  - `MoveParticles` is the per-frame bounce step.
  - `UpdateConnections` scans every pair i < j and links two particles
    closer than 150 px, with alpha (1 − d/150)·0.3.
  - `OnWindowResize` resizes the canvas and regenerates the particles.
- **Landing particle background** (`ParticleBackground`,
  particle_background.dfy):
  - `Particle` objects record the canvas size when they are created, but
    bounce against the size passed to `Update`.
  - `Background` creates 80 of them and keeps them when the window is
    resized.
- **Bounce rule** (`Bounce`, bounce.dfy). Both particle backgrounds share
  the one-axis step: move, then turn around when outside [0, bound]. The
  module also proves that a particle left more than one step beyond a
  shrunk edge stays trapped there (`ShrunkCanvasTrapsParticle` applies
  this to the landing background after a resize).
- **Header** (`AppHeader`, app_header.dfy):
  - the wallet address truncation
  - the label of the connected-wallet button
  - the navigation highlight rule
  - which wallet controls are shown
- **Hero text splitting** (`Landing`, landing.dfy). `SplitText` replaces
  each matched element's content with per-character or per-word spans,
  then returns the `hero-char` spans.

The following are parameters of the model rather than computations:
- `Math.random` is a stream `random: nat -> real`. `IsRandom` says only
  that every draw lies in [0, 1). Each creation call takes its own stream
  and numbers its draws from 0 in the order the source makes them:
  `CreateParticles` gives particle i the draws 6i..6i+5, and the landing
  `Background` gives particle i the draws 5i..5i+4.
- `Math.sqrt` is a parameter `sqrt`. `IsSqrt` says it returns the exact
  non-negative square root.
- Numbers are exact reals. Canvas sizes are natural numbers, and so are
  typed-array indices.

## Model

| member | source | states |
|---|---|---|
| ThreeBackground.Polyline.constructor | client/src/components/ThreeBackground.tsx:45-51 | records the points and their count (at least two); afterwards all six buffers hold exactly the contents given by VertexBuffer, PrevPoints, NextPoints, SideBuffer, UvBuffer and IndexBuffer |
| ThreeBackground.Polyline.Init | client/src/components/ThreeBackground.tsx:53-79 | allocates position, prev and next with 6·count entries; side, uv and index are filled as SideBuffer, UvBuffer and IndexBuffer; points and count are unchanged |
| ThreeBackground.Attributes | client/src/components/ThreeBackground.tsx:58-71 | the point-by-point loop returns fresh side, uv and index buffers equal to SideBuffer(n), UvBuffer(n) and IndexBuffer(n) |
| ThreeBackground.SetSide | client/src/components/ThreeBackground.tsx:63-64 | writes -1 and +1 at 2i and 2i+1 and leaves every other entry alone |
| ThreeBackground.SetUv | client/src/components/ThreeBackground.tsx:65-66 | writes (0, v, 1, v) with v = i/(n−1) at 4i..4i+3 and leaves every other entry alone |
| ThreeBackground.SetIndex | client/src/components/ThreeBackground.tsx:63-70 | writes (2i, 2i+1, 2i+2, 2i+2, 2i+1, 2i+3), each reduced modulo 2^16, at 6i..6i+5 and leaves every other entry alone |
| ThreeBackground.Set | client/src/components/ThreeBackground.tsx:64 | a typed array's set(values, offset): the values land at offset onwards and nothing else changes |
| ThreeBackground.Polyline.UpdateGeometry | client/src/components/ThreeBackground.tsx:81-108 | position holds every point twice in order; prev and next hold each point's neighbours, with the mirrored point at the two ends |
| ThreeBackground.WriteVertex | client/src/components/ThreeBackground.tsx:82-84 | the two toArray calls for point j put it at offsets 6j and 6j+3 and change nothing outside 6j..6j+5 |
| ThreeBackground.WriteVec | client/src/components/ThreeBackground.tsx:82 | toArray writes x, y, z at offset and nothing else |
| ThreeBackground.VertexBufferAt | client/src/components/ThreeBackground.tsx:82-84 | the buffer has 6·count entries, and coordinate c of point i sits at both 6i+c and 6i+3+c |
| ThreeBackground.NeighbourPoints | client/src/components/ThreeBackground.tsx:86-102 | prev of an inner point is the point before it and next is the point after it; each end point lies exactly halfway between its real neighbour and its mirrored one (2·p0 − p1, 2·p_last − p_last−1) |
| ThreeBackground.Reflect | client/src/components/ThreeBackground.tsx:87-96 | tmp.copy(p).sub(q).add(p): p is the midpoint of q and the result |
| ThreeBackground.SideAt | client/src/components/ThreeBackground.tsx:58-64 | side has 2·count entries; −1 at 2i and +1 at 2i+1 |
| ThreeBackground.UvAt | client/src/components/ThreeBackground.tsx:59-66 | uv has 4·count entries, and the row of point i is (0, v, 1, v) with v = i/(count−1) |
| ThreeBackground.UvEnds | client/src/components/ThreeBackground.tsx:65 | v is 0 at the first point and 1 at the last, and lies in [0, 1] |
| ThreeBackground.UvIncreasing | client/src/components/ThreeBackground.tsx:65 | v grows strictly along the line |
| ThreeBackground.ToUint16 | client/src/components/ThreeBackground.tsx:60-70 | a Uint16Array entry: below 2^16, the value itself when it fits, the value less 2^16 when it exceeds by one wrap |
| ThreeBackground.IndexAt | client/src/components/ThreeBackground.tsx:60-70 | entry 6i+c of the index buffer is corner c of segment i reduced modulo 2^16 |
| ThreeBackground.IndexTriangles | client/src/components/ThreeBackground.tsx:60-70 | the index buffer has 6·(count−1) entries, so the last point adds no triangles; while 2·count ≤ 65536, entry 6i+c is corner c of segment i's triangles (2i, 2i+1, 2i+2) and (2i+2, 2i+1, 2i+3) |
| ThreeBackground.IndexInRangeIff | client/src/components/ThreeBackground.tsx:60-70 | every index is exact and below 2·count if and only if 2·count ≤ 65536; beyond that the largest index wraps |
| ThreeBackground.EveryVertexDrawn | client/src/components/ThreeBackground.tsx:68-70 | when the indices fit in 16 bits, every vertex 0..2·count−1 is a corner of some triangle |
| ThreeBackground.VertexRows | client/src/components/ThreeBackground.tsx:81-102 | a buffer holding every point twice, point by point, is exactly VertexBuffer |
| ThreeBackground.SideRows | client/src/components/ThreeBackground.tsx:63-64 | a buffer holding (−1, +1) for every point is exactly SideBuffer |
| ThreeBackground.UvRows | client/src/components/ThreeBackground.tsx:65-66 | a buffer holding (0, v, 1, v) for every point is exactly UvBuffer |
| ThreeBackground.IndexRows | client/src/components/ThreeBackground.tsx:68-70 | a buffer holding the two triangles of every segment is exactly IndexBuffer |
| AppBackground.Field.constructor | client/src/components/AppBackground.tsx:139-141 | mounting sizes the canvas to the window and creates ⌊w·h/15000⌋ particles from the draws; the first frame then moves each of them once and computes their connections |
| AppBackground.Field.Resize | client/src/components/AppBackground.tsx:32-35 | the canvas takes the window size; particles and connections are unchanged |
| AppBackground.Field.CreateParticles | client/src/components/AppBackground.tsx:37-51 | the list is replaced by exactly ⌊w·h/15000⌋ particles, particle i built from draws 6i..6i+5, each within its documented range |
| AppBackground.Field.OnWindowResize | client/src/components/AppBackground.tsx:143-146 | a resize sets the canvas to the window size and regenerates the whole particle list for the new size |
| AppBackground.Field.MoveParticles | client/src/components/AppBackground.tsx:79-85 | every particle takes one bounce step against the canvas size; the list length is unchanged |
| AppBackground.Field.UpdateConnections | client/src/components/AppBackground.tsx:53-72 | the connection list is rebuilt from empty as the pair scan over i < j gives it |
| AppBackground.Field.Frame | client/src/components/AppBackground.tsx:79-87 | one frame moves every particle, then recomputes the connections from the moved particles |
| AppBackground.ParticleCount | client/src/components/AppBackground.tsx:39 | the count n is the floor of w·h/15000: n·15000 ≤ w·h < (n+1)·15000 |
| AppBackground.NoParticlesIffSmall | client/src/components/AppBackground.tsx:39 | the count is zero exactly when the area is below 15000 |
| AppBackground.NewParticle | client/src/components/AppBackground.tsx:41-49 | definition, no contract of its own: particle i takes draws 6i..6i+5 in the order x, y, vx, vy, size, alpha with the source's formulas; NewParticleInRanges states its ranges |
| AppBackground.NewParticleInRanges | client/src/components/AppBackground.tsx:41-49 | for every particle index the loop reaches: x ∈ [0, w), y ∈ [0, h), vx, vy ∈ [−0.15, 0.15), size ∈ [1, 3), alpha ∈ [0.2, 0.7) |
| AppBackground.OnCanvasInRanges | client/src/components/AppBackground.tsx:42-48 | on a non-empty canvas every drawn particle is within those ranges |
| AppBackground.DrawsInRanges | client/src/components/AppBackground.tsx:45-48 | the velocity, size and alpha formulas map [0, 1) onto their ranges |
| AppBackground.NonEmptyCanvas | client/src/components/AppBackground.tsx:39-41 | the creation loop runs at least once only when both canvas sides are positive |
| AppBackground.Move | client/src/components/AppBackground.tsx:79-85 | one frame of one particle (Bounce.Step on each axis): size and alpha are unchanged and both speeds are kept |
| AppBackground.MoveReflects | client/src/components/AppBackground.tsx:79-85 | a particle moves by (vx, vy); vx is negated when the new x is outside [0, w] and kept otherwise, so for a non-zero vx it flips if and only if the new x is outside; likewise vy |
| AppBackground.CreatedIsNear | client/src/components/AppBackground.tsx:42-48 | a freshly drawn particle is within one step of the canvas, or heading back to it |
| AppBackground.MoveKeepsNear | client/src/components/AppBackground.tsx:79-85 | the move step preserves that invariant, so particles never drift away |
| AppBackground.PairConnection | client/src/components/AppBackground.tsx:59-68 | definition, no contract of its own: the body of the inner loop for (i, j), one connection with alpha (1 − d/150)·0.3 when d < 150, else none; PairShape states its shape |
| AppBackground.Upto | client/src/components/AppBackground.tsx:57-70 | definition, no contract of its own: what the two loops have pushed before they reach pair (i, j); the Upto lemmas below state its properties |
| AppBackground.Connections | client/src/components/AppBackground.tsx:53-72 | definition, no contract of its own: what the full scan leaves; ConnectionsProper, ConnectionsComplete, ConnectionsOrdered and ConnectionsCount state its properties |
| AppBackground.ConnectionsProper | client/src/components/AppBackground.tsx:57-67 | every connection joins i < j of close particles, with alpha (1 − d/150)·0.3 |
| AppBackground.ConnectionsComplete | client/src/components/AppBackground.tsx:57-68 | every pair i < j closer than 150 is connected |
| AppBackground.ConnectionsOrdered | client/src/components/AppBackground.tsx:57-64 | connections are strictly ordered by (from, to), so no pair appears twice |
| AppBackground.ConnectionsCount | client/src/components/AppBackground.tsx:57-58 | at most n(n−1)/2 connections for n particles |
| AppBackground.UptoProper | client/src/components/AppBackground.tsx:57-67 | everything built before pair (i, j) is a proper connection: i < j, closer than 150, with the alpha of its distance |
| AppBackground.UptoBefore | client/src/components/AppBackground.tsx:57-58 | everything built before pair (i, j) joins a pair that precedes (i, j) in the scan order |
| AppBackground.UptoIncreasing | client/src/components/AppBackground.tsx:57-64 | what is built before (i, j) is in strictly increasing (from, to) order between neighbours |
| AppBackground.IncreasingOrdered | client/src/components/AppBackground.tsx:57-64 | neighbour-wise increasing order gives strict order between any two positions |
| AppBackground.UptoPrefix | client/src/components/AppBackground.tsx:57-66 | the loops only append: what is built before an earlier pair is a prefix of what is built before a later one |
| AppBackground.UptoLength | client/src/components/AppBackground.tsx:57-58 | before (i, j) at most one connection per pair already scanned: rows a < i, then the j − i − 1 pairs of row i |
| AppBackground.PairBoundValue | client/src/components/AppBackground.tsx:57-58 | the first i rows of an n-particle scan hold i(2n − i − 1)/2 pairs |
| AppBackground.Field.ConnectLater | client/src/components/AppBackground.tsx:58-70 | the inner loop for particle i appends exactly the connections of row i to those of the earlier rows |
| AppBackground.ConnectedIffClose | client/src/components/AppBackground.tsx:61-63 | dist < 150 if and only if dx² + dy² < 22500 |
| AppBackground.SquareBelow | client/src/components/AppBackground.tsx:61-63 | squaring is strictly increasing on non-negative reals, which gives the distance comparison |
| AppBackground.ConnectionAlphaBounds | client/src/components/AppBackground.tsx:67 | connection alpha lies in (0, 0.3] and is 0.3 exactly at distance 0 |
| AppBackground.ConnectionAlphaAtTen | client/src/components/AppBackground.tsx:59-68 | two particles 10 px apart are connected with alpha (1 − 10/150)·0.3 |
| AppBackground.NoConnectionAt151 | client/src/components/AppBackground.tsx:63 | two particles 151 px apart are not connected |
| ParticleBackground.Particle.constructor | client/src/components/ParticleBackground.tsx:12-20 | records the canvas size; size ∈ [0.5, 2.5), x ∈ [0, w), y ∈ [0, h), speeds ∈ [−0.2, 0.2), from draws taken in the order size, x, y, speedX, speedY |
| ParticleBackground.Particle.Update | client/src/components/ParticleBackground.tsx:22-28 | each axis takes one bounce step against the canvas size passed in; size and the recorded canvas size are unchanged |
| ParticleBackground.NewParticles | client/src/components/ParticleBackground.tsx:58-62 | the creation loop returns exactly 80 new, distinct particles; particle i records the canvas size and is built from draws 5i..5i+4 in the order size, x, y, speedX, speedY |
| ParticleBackground.Background.constructor | client/src/components/ParticleBackground.tsx:55-75 | the list is replaced by exactly 80 new, distinct particles sized to the canvas; particle i is built from draws 5i..5i+4 (size, x, y, speedX, speedY) and the first animate() has moved it once against the canvas |
| ParticleBackground.Background.Resize | client/src/components/ParticleBackground.tsx:50-53 | a resize changes only the canvas size; the particle list is the same |
| ParticleBackground.Background.Frame | client/src/components/ParticleBackground.tsx:67-70 | every particle is updated once against the current canvas size |
| ParticleBackground.ShrunkCanvasTrapsParticle | client/src/components/ParticleBackground.tsx:22-28 | after the canvas shrinks (the list is kept), any particle with a created speed in [−0.2, 0) that lies more than 0.2 beyond the new right edge stays beyond it after every number of frames |
| Bounce.Step | client/src/components/ParticleBackground.tsx:22-28 | one frame on one axis: the position moves by the whole velocity, never clamped, and the speed is kept |
| Bounce.StepReflectsIffOutside | client/src/components/ParticleBackground.tsx:23-27 | the position advances by the velocity; the velocity is negated when the new position is outside [0, bound] and kept otherwise, so a non-zero velocity flips if and only if it is outside; the speed is kept |
| Bounce.InsideIsNear | client/src/components/AppBackground.tsx:42-44 | a position on the canvas satisfies the near-canvas invariant |
| Bounce.StepKeepsNear | client/src/components/AppBackground.tsx:80-84 | one step preserves the near-canvas invariant |
| Bounce.StepsKeepNear | client/src/components/AppBackground.tsx:79-85 | any number of steps preserves it and keeps the speed |
| Bounce.TrappedBeyondEdge | client/src/components/ParticleBackground.tsx:23-27 | beyond the far edge by more than one step and heading back, two steps return the exact same state |
| Bounce.TrappedForever | client/src/components/ParticleBackground.tsx:23-27 | then every even number of steps returns that state, which is outside |
| Bounce.StepsAdd | client/src/components/ParticleBackground.tsx:67-70 | m frames followed by n frames are m + n frames |
| AppHeader.TruncateAddress | client/src/components/AppHeader.tsx:18-20 | the first min(4, len) characters, then "...", then the last min(4, len), so the length is 2·min(4, len) + 3 |
| AppHeader.TruncateLongAddress | client/src/components/AppHeader.tsx:19 | an address of at least 8 characters gives 11 characters that keep its first and last four; two such addresses truncate alike if and only if those ends agree |
| AppHeader.TruncateIdempotent | client/src/components/AppHeader.tsx:19 | truncating a truncated full-length address changes nothing |
| AppHeader.Address | client/src/components/AppHeader.tsx:22-26 | user?.wallet?.address when truthy: a returned address is the user's wallet address and not empty; none when the user, the wallet or the address is missing or empty |
| AppHeader.DisplayAddress | client/src/components/AppHeader.tsx:22-27 | "Connected" without a non-empty wallet address, else the truncated address |
| AppHeader.DisplayAddressConnectedIff | client/src/components/AppHeader.tsx:22-27 | the label is "Connected" if and only if there is no usable address |
| AppHeader.IsHighlighted | client/src/components/AppHeader.tsx:49-56 | definition, no contract of its own: "/app" is highlighted only at "/app", any other href when the location equals it or starts with it; NavClass, HighlightIsPrefix and AtMostOneHighlighted state its consequences |
| AppHeader.NavClass | client/src/components/AppHeader.tsx:49-57 | the active class is chosen if and only if the highlight rule holds |
| AppHeader.HighlightIsPrefix | client/src/components/AppHeader.tsx:49-56 | for every item the rule is plain prefix matching, since no href is "/app" |
| AppHeader.NothingHighlightedAtAppRoot | client/src/components/AppHeader.tsx:49-56 | at "/app" no item is highlighted |
| AppHeader.AtMostOneHighlighted | client/src/components/AppHeader.tsx:49-56 | no location highlights two items |
| AppHeader.HrefsNotNested | client/src/components/AppHeader.tsx:6-11 | no href is a prefix of another |
| AppHeader.Controls | client/src/components/AppHeader.tsx:66-93 | when authenticated: the address button and a disconnect button wired to logout; otherwise a login button, disabled exactly when not ready and labelled "Connect Wallet" when ready and "Loading..." otherwise |
| Landing.Split | client/src/pages/Landing.tsx:38 | split always yields at least one piece |
| Landing.JoinSplit | client/src/pages/Landing.tsx:38 | joining the pieces with the separator gives back the text |
| Landing.SplitPieces | client/src/pages/Landing.tsx:38 | no piece holds the separator; there is one more piece than separators, empty pieces included |
| Landing.Spans | client/src/pages/Landing.tsx:28-43 | definition, no contract of its own: one span per character in chars mode, one per split(' ') piece in words mode; CharSpansText and WordSpansText state their texts and classes |
| Landing.CharSpansText | client/src/pages/Landing.tsx:28-35 | one inline-block hero-char span per character, in order; their texts run together to the text with spaces made U+00A0 |
| Landing.WordSpansTextOf | client/src/pages/Landing.tsx:38-43 | word spans of space-free pieces run together to the pieces, each followed by U+00A0 |
| Landing.WordSpansText | client/src/pages/Landing.tsx:36-43 | one inline-block span per piece, one more than spaces, no class; their texts run together to the text with spaces made U+00A0, plus a final U+00A0 |
| Landing.ReplaceSpacesWithout | client/src/pages/Landing.tsx:31 | a space-free text is left as it is |
| Landing.ReplaceSpacesAppend | client/src/pages/Landing.tsx:31 | the replacement works character by character |
| Landing.JoinSnoc | client/src/pages/Landing.tsx:38 | joining one more piece adds the separator and the piece |
| Landing.HeroSpansOfSplit | client/src/pages/Landing.tsx:33-46 | the hero-char selection of an element's spans is all of them when they carry the class, none otherwise |
| Landing.HeroSpansOfText | client/src/pages/Landing.tsx:33-46 | chars mode selects every span it made; words mode selects none |
| Landing.HeroCharsAfterSplit | client/src/pages/Landing.tsx:46 | the selection across elements is the char spans of each text in element order, or empty in words mode |
| Landing.SplitElement | client/src/pages/Landing.tsx:26-44 | the element's content is cleared and replaced by exactly the spans of its former text |
| Landing.AppendCharSpans | client/src/pages/Landing.tsx:28-35 | the chars loop appends one span per character, in order, to the emptied element |
| Landing.AppendWordSpans | client/src/pages/Landing.tsx:36-43 | the words loop appends one span per space-separated piece, in order, to the emptied element |
| Landing.SplitText | client/src/pages/Landing.tsx:23-47 | every matched element holds the spans of its former text; the result is the char spans of all texts in order in chars mode, and empty in words mode |

## Left out

- Drawing is left out: canvas fill, stroke, arc and gradient calls, WebGL rendering, shader sources, scene, camera and material setup, and colour scales. None of them produces a value beyond pixels.
- The `initScene` grid of points and its random uniforms in ThreeBackground.tsx are left out. They are trigonometry and randomness feeding the shader; any point list is accepted instead.
- Floating point is not modelled: numbers are exact reals, and Float32Array storage rounding is ignored.
- Integer overflow and saturation are not modelled, except the 16-bit wrap of the index buffer.
- ThreeBackground.Polyline.constructor: requires at least two points. With one point, `points[i + 1]` is undefined and v divides by zero. With none, the index array length is negative.
- The BufferGeometry object, its attribute registration and the `needsUpdate` flags are left out. The `side`, `uv` and `index` buffers are fields of the model so that their contents can be stated.
- Math.random and Math.sqrt are parameters, not computations. The model assumes nothing about the distribution of the draws, only their range.
- Frame scheduling is left out (requestAnimationFrame, cancelAnimationFrame). A frame is modelled as one call, not as an endless loop.
- Event listeners and cleanup are left out. AppBackground's cleanup removes `resize`, but the listener it added is a different function, so that listener stays attached. The model only says what one resize does.
- AppBackground.Field.UpdateConnections: a connection holds particle indices, not references to particle objects.
- ParticleBackground.Particle.draw is drawing and is left out.
- Landing.SplitText: the DOM is a sequence of elements with children. `innerText` is the concatenation of the children's texts, ignoring layout and CSS. `text.split('')` is modelled as splitting into characters, not UTF-16 code units. The effect of `querySelectorAll` on nested matched elements is not modelled: elements are assumed distinct and not nested.
- The GSAP animation timeline is left out, and so is the rest of the Landing page.
- AppHeader.TruncateAddress: `slice` is modelled on characters, not UTF-16 code units; an address is ASCII in practice.
- The authentication provider is left out: Privy's `login` and `logout` are the actions `Login` and `Logout`, and `ready`, `authenticated` and `user` are inputs. The wouter location is an input string.
