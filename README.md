# Park scene rule systems, modelled in Dafny

This project models the logic under the rendering code of a React/Three.js
park scene. It covers the following systems:

- the terrain heightfield and ground-patch placement;
- path and water geometry buffers;
- the time-of-day phase machines of the light rig, the day/night cycle, the
  park scene and the sky box;
- the per-frame state machines of wildlife, the player and the fountains;
- the clock display;
- the utilities in `three-utils.js`.

Each core source file has one Dafny module with the same name (`Ground`,
`Pathways`, `Water`, `LightSetup`, `DayNightCycle`, `ParkScene`, `SkyBox`,
`Wildlife`, `Player`, `InteractiveObjects`, `UIOverlay`, `ThreeUtils`).
Three helper modules support them:

- `JsMath` (`js_math.dfy`): JavaScript's `Math` and arithmetic.
- `JsText` (`js_text.dfy`): `String(n)` and `padStart`.
- `Three` (`three.dfy`): vectors, lights and meshes.

How the model is built:

- Numbers are `real`. `Math.sin`, `Math.cos`, `Math.sqrt` and `Math.PI` are
  fields of a `Math` value passed as a parameter.
- The predicates `Lawful`, `Circular` and `HalfTurn` state the few facts the
  proofs use: |sin|, |cos| ≤ 1, sqrt ≥ 0 and monotone, sin² + cos² = 1, and
  cos(a+π) = −cos a.
- `Math.random()` is a stream `rand: nat -> real` read from a cursor. Every
  method that draws returns the next cursor. `UnitDraws(rand)` says every
  draw lies in [0, 1).
- JavaScript's `%` keeps the sign of the dividend. It is `JsMod`, built on
  an explicit `Trunc`. `Math.floor` is `Floor`.
- Code that rewrites vertex buffers in place keeps its `array`. Each such
  loop is specified by a function of the old contents: `Ground.Shaped`,
  `Pathways.Lifted`, `Water.Rewritten` and `InteractiveObjects.Frame`.
- Objects whose fields the source mutates are classes: lights, meshes, the
  sky dome, clouds, animals, fountains, the player and the scene.
- `dispose()` calls are recorded in a `Ledger`, in call order.

Quirks of the code, modelled as written:

- The noise octave weights are effectively 0.6, 0.15 and 0.025. The extra
  `*0.5` and `*0.25` factors sit at `Ground.jsx:37-41`.
- The diagonal path factor is the literal 0.7071.
- The terrain vertex loop reads z from component `i+2` and writes only
  component `i+1` (`Ground.jsx:47-49` and line 117).
- `ParkScene`'s clock uses ⌊24t⌋ without `% 24`. `UIOverlay` reduces modulo
  24. `ParkScene.ClockTextMatchesOverlay` shows the two agree on [0, 1).
- Several sky-box quirks are modelled as written:
  - there is no branch at exactly t = 0.2;
  - the moon opacity is −10 at t = 0.25;
  - the sun opacity is 10 at t = 0.3 and lies in (1, 2] on [0.7, 0.75).
- A pond's plant count is 1.5 × the base count and need not be whole. The
  loop runs ⌈count⌉ times.
- The light-setup phases are closed at the daytime bounds: t = 0.3 and
  t = 0.7 are daytime. t = 0.2 and t = 0.8 are night.

## Model

| member | source | states |
|---|---|---|
| ThreeUtils.Distance | src/utils/three-utils.js:1-7 | the distance between two points is never negative |
| ThreeUtils.DistanceSymmetric | src/utils/three-utils.js:1-7 | distance(p, q) = distance(q, p) |
| ThreeUtils.DistanceToSelf | src/utils/three-utils.js:1-7 | a point is at distance 0 from itself |
| ThreeUtils.DegRadRoundTrip | src/utils/three-utils.js:9-20 | radToDeg inverts degToRad and degToRad inverts radToDeg, over the reals |
| ThreeUtils.SampleInBounds | src/utils/three-utils.js:95-96 | with min < max, every sample lies in [minX, maxX) × [minZ, maxZ) |
| ThreeUtils.Pick | src/utils/three-utils.js:89-108 | the accepted attempt index is below 50: at most 50 attempts are made |
| ThreeUtils.PickIsFirst | src/utils/three-utils.js:89-108 | every earlier attempt was rejected, and the chosen one is accepted unless it is the 50th |
| ThreeUtils.NothingToAvoid | src/utils/three-utils.js:82-107 | with no positions to avoid, the first sample is accepted |
| ThreeUtils.AllRejected | src/utils/three-utils.js:91-110 | when all 50 attempts fail, the last sample is returned with no failure signal |
| ThreeUtils.FarFromAll | src/utils/three-utils.js:98-107 | a sample is valid exactly when it is at least minDistance from every avoided position |
| ThreeUtils.RandomPosition | src/utils/three-utils.js:77-111 | returns the first accepted sample (or the 50th), and reads two draws per attempt |
| ThreeUtils.Attempt | src/utils/three-utils.js:94-107 | one attempt draws the a-th sample and decides its validity |
| ThreeUtils.RandomPositionDefault | src/utils/three-utils.js:77-84 | with the default bounds and nothing to avoid, the first sample is taken, in [−10, 10)² |
| ThreeUtils.Textures | src/utils/three-utils.js:66-71 | a material has at most as many textures as properties |
| ThreeUtils.TexturesExactly | src/utils/three-utils.js:66-71 | a handle is disposed as a texture exactly when some property holds that texture |
| ThreeUtils.DisposeMaterial | src/utils/three-utils.js:62-75 | every texture-valued property is disposed, in property order, before the material itself; a missing material disposes nothing |
| ThreeUtils.DisposeMaterials | src/utils/three-utils.js:36-39 | each material of an array is disposed in order |
| ThreeUtils.ReleaseOwn | src/utils/three-utils.js:29-43 | the geometry is disposed first, then the single material or each material of the array |
| ThreeUtils.RemoveFirst | src/utils/three-utils.js:46-48 | removing a child shortens the list by one; removing an absent one changes nothing |
| ThreeUtils.IndexOf | src/utils/three-utils.js:46-48 | the index of the first occurrence, or −1 when absent |
| ThreeUtils.SpliceAtIndexOf | src/utils/three-utils.js:46-48 | splicing at indexOf removes exactly the first occurrence |
| ThreeUtils.Node.Remove | src/utils/three-utils.js:46-48 | a child is taken out of the parent's list and loses its parent; a non-child changes nothing |
| ThreeUtils.DisposeObject | src/utils/three-utils.js:26-56 | afterwards the node has no children and no parent; the parent's list lost exactly this node; the node's own disposals are recorded first; null does nothing |
| ThreeUtils.DisposeChild | src/utils/three-utils.js:50-55 | each loop pass removes children[0] from the node: the list shrinks by its head, which is why the loop ends |
| Ground.Octave | src/components/Ground/Ground.jsx:34-41 | one octave sin·cos + cos·sin lies in [−2, 2] |
| Ground.NoiseEffectiveWeights | src/components/Ground/Ground.jsx:28-45 | the noise is the octave sum with effective weights 0.6, 0.15, 0.025 at frequencies 0.015, 0.03, 0.08 |
| Ground.NoiseBound | src/components/Ground/Ground.jsx:28-45 | the noise magnitude is at most 1.55 |
| Ground.EdgeFalloff | src/components/Ground/Ground.jsx:52-56 | the edge falloff lies in [0, 1] |
| Ground.EdgeFalloffVanishes | src/components/Ground/Ground.jsx:52-56 | the falloff is 0 exactly at distance ≥ 90 (0.45 · groundSize 200) from the origin |
| Ground.PathDistance | src/components/Ground/Ground.jsx:59-70 | the path distance is non-negative, 0 exactly on the two axes and two diagonals, and at most abs(x) and abs(z) |
| Ground.PathInfluence | src/components/Ground/Ground.jsx:73 | min(1, pathDist/8) lies in [0, 1], is 0 exactly on a path line and is 1 from distance 8 on |
| Ground.AttenuateBound | src/components/Ground/Ground.jsx:76-79 | noise·3 times two factors in [0, 1] stays within ±4.65 |
| Ground.NoiseTermBound | src/components/Ground/Ground.jsx:76-79 | the scaled, masked noise term lies in [−4.65, 4.65] |
| Ground.NoiseTermVanishes | src/components/Ground/Ground.jsx:52-79 | the noise term is 0 on every path line and beyond the falloff radius |
| Ground.RadialInfluence | src/components/Ground/Ground.jsx:83-86 | a hill's influence lies in [0, 1] |
| Ground.RadialInfluenceShape | src/components/Ground/Ground.jsx:83-86 | the influence is 1 at the centre and 0 exactly at or beyond the radius |
| Ground.AddHillShape | src/components/Ground/Ground.jsx:82-88 | a hill term is in [0, height] for a non-negative height, equals the height at its centre and is 0 at or beyond its radius |
| Ground.HillTermsBound | src/components/Ground/Ground.jsx:90-94 | the four hills together add between 0 and 10.3 |
| Ground.WaterInfluence | src/components/Ground/Ground.jsx:104-107 | a water area's blend factor lies in [0, 1] |
| Ground.BlendWater | src/components/Ground/Ground.jsx:103-115 | zero influence leaves the height unchanged; otherwise the result lies between the old height and the depth; at the centre it is the depth |
| Ground.CentreTakesDepth | src/components/Ground/Ground.jsx:97-115 | at an area's centre the height is that area's depth when no later area reaches it, so the last write wins |
| Ground.OutsideArea | src/components/Ground/Ground.jsx:104-107 | at or beyond an area's radius its influence is 0 |
| Ground.FirstWaterCentreAtDepth | src/components/Ground/Ground.jsx:97-115 | the terrain height at (−25, −20) is −0.3 |
| Ground.SecondWaterCentreAtDepth | src/components/Ground/Ground.jsx:97-115 | the terrain height at (25, 25) is −0.4 |
| Ground.ThirdWaterCentreAtDepth | src/components/Ground/Ground.jsx:97-115 | the terrain height at (0, 0) is −0.5 |
| Ground.TerrainHeight | src/components/Ground/Ground.jsx:75-115 | the running-height computation (noise, hills, then each water area in list order) equals the height function |
| Ground.ShapedTriple | src/components/Ground/Ground.jsx:47-117 | after shaping, component i+1 of each triple is height(s[i], s[i+2]) and components i and i+2 are unchanged |
| Ground.ShapeTerrain | src/components/Ground/Ground.jsx:47-118 | the vertex loop rewrites the array to its shaped form, triple by triple, and changes nothing else |
| Ground.NearWaterSquared | src/components/Ground/Ground.jsx:309-318 | a spot is near water exactly when its squared distance to some exclusion centre (radii 10, 12, 5) is below the squared radius |
| Ground.ValidSpotOffPaths | src/components/Ground/Ground.jsx:320-329 | a valid spot is at least 5 from both axes and on no path line |
| Ground.SampleCoord | src/components/Ground/Ground.jsx:305-306 | a sample coordinate lies in [−40, 40) |
| Ground.TrySpot | src/components/Ground/Ground.jsx:305-329 | one attempt samples x, z and decides validity against water and paths |
| Ground.FindSpot | src/components/Ground/Ground.jsx:300-331 | at most 20 attempts; a found spot is the first valid attempt, and every earlier attempt was invalid |
| Ground.PlacePatch | src/components/Ground/Ground.jsx:300-344 | a patch is placed only at the first valid attempt within 20, with the type's height offset and a scale drawn from its range; otherwise none is placed and all 20 attempts were invalid |
| Ground.AddGroundPatches | src/components/Ground/Ground.jsx:291-346 | at most 20 + 15 + 12 patches, each at a valid spot with its type's height offset and a scale in the type's range |
| Pathways.FirstGroundHit | src/components/Pathways/Pathways.jsx:18-25 | the ground height always has magnitude below 5 |
| Pathways.GetGroundHeight | src/components/Pathways/Pathways.jsx:18-25 | the early-return scan returns the first-hit value |
| Pathways.FirstGroundHitAt | src/components/Pathways/Pathways.jsx:18-25 | the result is the y of the first hit in list order with abs(y) < 5 |
| Pathways.NoGroundHit | src/components/Pathways/Pathways.jsx:18-25 | with no such hit the result is 0 |
| Pathways.PathQuadGoesRound | src/components/Pathways/Pathways.jsx:129-159 | the quad's first two corners straddle the current point, the last two straddle the next one, and corners are stored in order [v1, v2, v4, v3] |
| Pathways.PathQuads | src/components/Pathways/Pathways.jsx:125-160 | m sampled points give max(0, m − 1) quads, quad i joining points i and i + 1 |
| Pathways.BuildPathQuads | src/components/Pathways/Pathways.jsx:122-160 | the push loop builds exactly that quad list |
| Pathways.CornerCoords | src/components/Pathways/Pathways.jsx:167-172 | j corners give 3j numbers |
| Pathways.QuadVertices | src/components/Pathways/Pathways.jsx:167-172 | n quads give 12n vertex numbers |
| Pathways.QuadIndices | src/components/Pathways/Pathways.jsx:174-183 | n quads give 6n indices |
| Pathways.QuadIndicesInRange | src/components/Pathways/Pathways.jsx:174-183 | every index is in [0, 4n) |
| Pathways.QuadIndicesAt | src/components/Pathways/Pathways.jsx:174-183 | quad i contributes triangles (4i, 4i+1, 4i+2) and (4i, 4i+2, 4i+3) |
| Pathways.QuadVerticesAt | src/components/Pathways/Pathways.jsx:168-172 | corner j of quad i sits at offset 12i + 3j of the vertex buffer |
| Pathways.CornerCoordsAt | src/components/Pathways/Pathways.jsx:170-172 | corner j's coordinates sit at offset 3j of a quad's numbers |
| Pathways.BuildBuffers | src/components/Pathways/Pathways.jsx:163-184 | the nested push loops build exactly the vertex and index buffers |
| Pathways.CreateSmoothPath | src/components/Pathways/Pathways.jsx:121-184 | the path strip is the buffers of the path quads |
| Pathways.EdgeQuadsMirror | src/components/Pathways/Pathways.jsx:341-367 | the left (side −1) and right (side +1) edge quads mirror each other about the path's centre line, left in order [v1, v2, v4, v3], right in [v2, v1, v3, v4] |
| Pathways.EdgeQuads | src/components/Pathways/Pathways.jsx:327-368 | each edge strip has as many quads as the path |
| Pathways.BuildEdgeQuads | src/components/Pathways/Pathways.jsx:324-368 | the push loop builds exactly that edge quad list |
| Pathways.CreatePathEdges | src/components/Pathways/Pathways.jsx:322-392 | exactly two strips are built, side −1 then side +1 |
| Pathways.EdgeStripLifted | src/components/Pathways/Pathways.jsx:379 | every edge vertex's y is its corner's y lifted by 0.005 |
| Pathways.FollowGround | src/components/Pathways/Pathways.jsx:240-244 | a vertex is moved only when its ground height is non-zero, and then to ground + 0.02 |
| Pathways.LiftedTriple | src/components/Pathways/Pathways.jsx:229-245 | after the adjustment only component i+1 of each triple can change, and it follows the ground at (x, z) |
| Pathways.AdjustStraightPath | src/components/Pathways/Pathways.jsx:228-245 | the in-place loop rewrites the position array to its lifted form |
| Pathways.ChooseBorderType | src/components/Pathways/Pathways.jsx:1133-1144 | the cumulative-probability loop returns the choice function's result |
| Pathways.ChoiceBands | src/components/Pathways/Pathways.jsx:1133-1146 | no type is chosen exactly when the draw is not below the total; otherwise type c is chosen exactly when the draw lies in [sum of the first c, sum of the first c+1) |
| Pathways.BorderChoice | src/components/Pathways/Pathways.jsx:1138-1146 | with probabilities (0.4, 0.3, 0.3): draws below 0.4 give type 0, [0.4, 0.7) type 1, [0.7, 1) type 2, and 1 or more nothing |
| Pathways.SideTurn | src/components/Pathways/Pathways.jsx:1118-1150 | draws in the source's order (skip, offset, x-jitter, z-jitter, type, scale): a side gets an element exactly when its skip draw is at most 0.4 and the type draw (four draws later) picks a type; the element's kind is that choice, its scale 0.8 + 0.4·(the draw after the type), its offset (width/2 + 0.3 + 0.7·draw)·side; a skipped side takes one draw, a side with no type five, and a placed element six plus its mesh builder's draws |
| Pathways.SideTurnDrawOrder | src/components/Pathways/Pathways.jsx:1120-1148 | with draws 0.0, 0.5, 0.5, 0.95, 0.1, 0.5 one side places a rock (type draw 0.1) of scale 1.0 at offset −1.65 and the next side starts at draw 6 |
| Pathways.PlacedOk | src/components/Pathways/Pathways.jsx:1105-1151 | every element the sampler places sits at an odd index below the limit, on side ±1 within the offset band, with a type and a scale in [0.8, 1.2), and the elements come in index order |
| Pathways.TurnOk | src/components/Pathways/Pathways.jsx:1118-1150 | a side's element at a sample index below the limit satisfies those bounds |
| Pathways.PlacedCount | src/components/Pathways/Pathways.jsx:1105-1118 | at most two elements per sample index |
| Pathways.PlaceSide | src/components/Pathways/Pathways.jsx:1118-1150 | one side's turn yields exactly `SideTurn`'s element and next draw |
| Pathways.PlaceSides | src/components/Pathways/Pathways.jsx:1117-1150 | the side loop appends exactly what the reference `Placed` assigns to index i and takes exactly its draws |
| Pathways.PlaceBorderElements | src/components/Pathways/Pathways.jsx:1105-1151 | the element list and next draw equal the reference `Placed` (side by side, index by index, as `SideTurn` says); so the elements sit only at odd interior indices, in index order, at most two per index, on side ±1 within the offset band, with a chosen type and a scale in [0.8, 1.2) |
| Pathways.OffsetBand | src/components/Pathways/Pathways.jsx:1122-1123 | the element offset lies between width/2 + 0.3 and width/2 + 1 from the centre line, on its side |
| Pathways.OddIndicesMembers | src/components/Pathways/Pathways.jsx:1105 | the sampled indices are exactly the odd k with 1 ≤ k < limit |
| Pathways.FlowerColourBuckets | src/components/Pathways/Pathways.jsx:934-944 | a negative seed gives yellow (JavaScript `%` keeps the sign); otherwise yellow, pink, purple and white take the quarters of the fractional seed in order |
| Water.PseudoRandomRange | src/components/Water/Water.jsx:28-31 | pseudoRandom lies in [0.8, 1.2] |
| Water.PseudoRandomShoreRange | src/components/Water/Water.jsx:190-194 | pseudoRandomShore lies in [0, factor] |
| Water.PseudoRandomRockRange | src/components/Water/Water.jsx:220-224 | pseudoRandomRock lies in [min, max] |
| Water.PseudoRandomDetailRange | src/components/Water/Water.jsx:281-285 | pseudoRandomDetail lies in [min, max] |
| Water.PseudoRandomPlantRange | src/components/Water/Water.jsx:348-352 | pseudoRandomPlant lies in [min, max] |
| Water.CarveBasin | src/components/Water/Water.jsx:33-43 | the basin loop rewrites the vertex array to its carved form, triple by triple |
| Water.BasinRewritten | src/components/Water/Water.jsx:33-43 | the basin loop writes only component i+1 of each triple |
| Water.CarvedVertex | src/components/Water/Water.jsx:33-43 | for a non-negative depth every carved y is ≤ 0, and x and z are kept |
| Water.BasinBelowSurface | src/components/Water/Water.jsx:37-42 | −depth·(1−nd)²·pseudoRandom is ≤ 0 for depth ≥ 0 |
| Water.BasinRim | src/components/Water/Water.jsx:37-42 | a vertex at normalised distance 1 is at height 0 |
| Water.BasinBeyondRim | src/components/Water/Water.jsx:40 | the factor is unclamped: a vertex at distance 1+e is lowered as deep as one at 1−e |
| Water.RoughenShore | src/components/Water/Water.jsx:195-203 | the shore loop rewrites every triple of the shore array in place |
| Water.ShoreRewritten | src/components/Water/Water.jsx:195-203 | vertex k's x and z shift by the seeded shore offsets, and its y becomes pseudoRandomShore(k + 200, 0.05) |
| Water.ShoreShiftBound | src/components/Water/Water.jsx:196-200 | each shore shift lies within ±0.075 |
| Water.RoughenedVertex | src/components/Water/Water.jsx:195-203 | every roughened vertex moves at most 0.075 in x and z and gets y in [0, 0.05] |
| Water.UnknownTypeIsLake | src/components/Water/Water.jsx:118-176 | a type other than lake, pond, stream or fountain gets the lake colour and the lake configuration |
| Water.KnownTypesDistinct | src/components/Water/Water.jsx:118-176 | the four known types have pairwise different colours and configurations |
| Water.RockCountRange | src/components/Water/Water.jsx:226 | the rock count is an integer in [8, 20] |
| Water.PlaceRocks | src/components/Water/Water.jsx:226-260 | exactly rockCount rocks are placed, rock i at its seeded spot |
| Water.RockShape | src/components/Water/Water.jsx:236-259 | each rock's size lies in [0.1, 0.35], and the rock sits 0.3·size above the water position |
| Water.Pebbles | src/components/Water/Water.jsx:287-296 | at most n pebbles are kept from n candidates |
| Water.PlacePebbles | src/components/Water/Water.jsx:287-330 | the loop keeps exactly the candidates whose draw passes the distance test |
| Water.PebblesOffCentre | src/components/Water/Water.jsx:289-296 | no kept pebble lies at the exact centre |
| Water.PebbleNotAtCentre | src/components/Water/Water.jsx:296 | a pebble passing the test (draw < 0.7·nd with a non-negative draw) is off the centre |
| Water.BaseCount | src/components/Water/Water.jsx:354-357 | min(max(10, ⌊w·h·0.15⌋), 30) lies in [10, 30] |
| Water.PlantCountRange | src/components/Water/Water.jsx:354-358 | the plant count is in [10, 30], or in [15, 45] for a pond |
| Water.PlacePlants | src/components/Water/Water.jsx:362-410 | the loop places ⌈plantCount⌉ plants, plant i at its seeded spot |
| Water.PlantHeights | src/components/Water/Water.jsx:365-409 | lily pads sit at position.y + 0.05; every other plant sits at position.y − depthAtPoint + 0.1 |
| LightSetup.SunPhase | src/components/LightSetup/LightSetup.jsx:190-235 | exactly one phase holds: sunrise on (0.2, 0.3), sunset on (0.7, 0.8), daytime on [0.3, 0.7], night otherwise, including t = 0.2 and 0.8 |
| LightSetup.SunPosition | src/components/LightSetup/LightSetup.jsx:194-204 | sun y is at least 10 and sun z is always −50 |
| LightSetup.ParkLightIntensity | src/components/LightSetup/LightSetup.jsx:238-248 | park lights get 0.1 exactly in daytime (0.25, 0.75), 0.5 exactly in sunrise or sunset outside it, and 0.9 otherwise |
| LightSetup.SunriseWithParkLightsOff | src/components/LightSetup/LightSetup.jsx:207-241 | on (0.25, 0.3) the sun uses sunrise values while the park lights are at 0.1 |
| LightSetup.LightRig.Install | src/components/LightSetup/LightSetup.jsx:19-164 | installs the sun, ambient and hemisphere lights and four park lights with the source's colours, intensities and positions |
| LightSetup.LightRig.UpdateDayNightCycle | src/components/LightSetup/LightSetup.jsx:185-249 | nothing changes while a main light is missing; otherwise `DayNightSet`: the sun light moves to the sun position and the sun and ambient lights take their phase's colour and intensity, the hemisphere light its intensity (colour kept), the ambient and hemisphere positions are kept, and every park light takes `ParkLightIntensity(time)` (0.1 by day, 0.5 at sunrise or sunset, 0.9 at night); park lights keep position and colour |
| DayNightCycle.Advance | src/components/DayNightCycle/DayNightCycle.jsx:145-146 | subtracting 1 once keeps time below 1 when t + step < 2, and leaves it alone below 1 |
| DayNightCycle.AdvanceStaysInDay | src/components/DayNightCycle/DayNightCycle.jsx:145-146 | from t in [0, 1) with a step in [0, 1], time stays in [0, 1) |
| DayNightCycle.MoonOppositeSun | src/components/DayNightCycle/DayNightCycle.jsx:150-157 | the moon's x and y are the negations of the sun's |
| DayNightCycle.NightFactor | src/components/DayNightCycle/DayNightCycle.jsx:170-173 | the night factor is non-negative, 0 only at t = 0 or 1, and at most 1.25 away from the day |
| DayNightCycle.SunIntensity | src/components/DayNightCycle/DayNightCycle.jsx:166-174 | the sun is 1 in daytime and in [0.1, 0.6] otherwise on [0, 1) |
| DayNightCycle.AmbientIntensity | src/components/DayNightCycle/DayNightCycle.jsx:166-175 | ambient is 0.4 in daytime and in [0.1, 0.225] otherwise on [0, 1) |
| DayNightCycle.FlagsOverlap | src/components/DayNightCycle/DayNightCycle.jsx:162-164 | the returned flags can be daytime and sunrise at once (t = 0.27), or daytime and sunset (t = 0.72) |
| DayNightCycle.Cycle.constructor | src/components/DayNightCycle/DayNightCycle.jsx:6-14 | time starts at 0.3 with speed 1 and no elements |
| DayNightCycle.Cycle.Install | src/components/DayNightCycle/DayNightCycle.jsx:16-113 | with a scene, creates the sun, moon, lights and stars at their initial places; without one, nothing |
| DayNightCycle.Cycle.Update | src/components/DayNightCycle/DayNightCycle.jsx:131-186 | with an element missing it returns the current time and mutates nothing; otherwise it advances time, places sun and moon, sets the intensities, stars at 0 by day and 0.7 at night, and reports the phase flags |
| DayNightCycle.Cycle.SetTimeSpeed | src/components/DayNightCycle/DayNightCycle.jsx:188-190 | stores the speed and nothing else |
| DayNightCycle.Cycle.SetTimeOfDay | src/components/DayNightCycle/DayNightCycle.jsx:192-194 | stores its argument without wrapping and nothing else |
| ParkScene.FixedTrees | src/components/ParkScene/ParkScene.jsx:38-57 | there are 18 fixed trees |
| ParkScene.Clusters | src/components/ParkScene/ParkScene.jsx:78-84 | there are five clusters |
| ParkScene.ClusterTotal | src/components/ParkScene/ParkScene.jsx:78-86 | the clusters hold 8 + 10 + 7 + 9 + 6 = 40 trees |
| ParkScene.ClusterDistance | src/components/ParkScene/ParkScene.jsx:63 | a cluster tree's drawn distance lies in [0.3r, r) |
| ParkScene.ClusterDistanceRange | src/components/ParkScene/ParkScene.jsx:63 | (0.3 + 0.7u)·r lies in [0.3r, r) for u in [0, 1) |
| ParkScene.ClusterMemberDistance | src/components/ParkScene/ParkScene.jsx:59-76 | each cluster tree lies at a distance in [0.3r, r) from its cluster centre |
| ParkScene.DrawnDistance | src/components/ParkScene/ParkScene.jsx:62-66 | a point at a drawn angle and distance lies in that ring about the centre |
| ParkScene.CreateTreeCluster | src/components/ParkScene/ParkScene.jsx:59-76 | the push loop builds exactly `count` trees, each a member of the cluster, reading two or three draws per tree |
| ParkScene.ScatteredDistance | src/components/ParkScene/ParkScene.jsx:90 | the base radius 15 + (i mod 10)·4 lies in [15, 51] |
| ParkScene.ScatteredType | src/components/ParkScene/ParkScene.jsx:96 | scattered tree i takes type list[i mod 6] |
| ParkScene.ScatteredTrees | src/components/ParkScene/ParkScene.jsx:88-99 | there are 20 scattered trees |
| ParkScene.ScatteredOnRing | src/components/ParkScene/ParkScene.jsx:88-94 | scattered tree i, less its offset, lies on the circle of its base radius |
| ParkScene.TreePositions | src/components/ParkScene/ParkScene.jsx:37-102 | 78 trees: the 18 fixed ones, then the five clusters in order, then the 20 scattered ones |
| ParkScene.BenchLayout | src/components/ParkScene/ParkScene.jsx:104-121 | 14 benches, each at least 8 from the centre along some axis, each turned by at most four eighths of a turn |
| ParkScene.ToggledSpeed | src/components/ParkScene/ParkScene.jsx:214-215 | KeyT maps speed 0.05 to 0.5 and every other value to 0.05 |
| ParkScene.ToggleTwice | src/components/ParkScene/ParkScene.jsx:214-215 | toggling twice restores 0.05 or 0.5 |
| ParkScene.FrameIncrement | src/components/ParkScene/ParkScene.jsx:244-247 | the frame's time increment is non-negative for non-negative inputs |
| ParkScene.NextTimeOfDay | src/components/ParkScene/ParkScene.jsx:244-247 | (t + min(0.1, δ)·speed) mod 1 stays in [0, 1) for non-negative inputs |
| ParkScene.ClockTextMatchesOverlay | src/components/ParkScene/ParkScene.jsx:249-253 | on [0, 1) the scene's clock text equals the overlay's formatTimeOfDay |
| ParkScene.FogDensity | src/components/ParkScene/ParkScene.jsx:319-338 | the fog density lies in [0.0025, 0.004], and is 0.004 exactly at night |
| ParkScene.SkyMatchesFog | src/components/ParkScene/ParkScene.jsx:319-355 | the background colour always equals the fog colour, and is sky blue exactly on [0.3, 0.7] |
| ParkScene.BasicSunPosition | src/components/ParkScene/ParkScene.jsx:311-316 | the basic sun's y is clamped to ≥ 0, and its z is half its x |
| ParkScene.Scene.constructor | src/components/ParkScene/ParkScene.jsx:17-166 | starts at time 0.3, speed 0.05, clock "12:00", auto-rotation on, sky-blue background and fog, basic lights |
| ParkScene.Scene.OnKeyDown | src/components/ParkScene/ParkScene.jsx:213-231 | KeyT toggles the speed and says which; Space flips auto-rotation and says which; other keys change nothing |
| ParkScene.Scene.UpdateDayNightCycle | src/components/ParkScene/ParkScene.jsx:286-355 | the lights end as `LightsAt` states: without the light rig the basic ambient and sun intensities and the sun position follow the day; with it the scene's own lights are untouched and the rig's lights are set as `DayNightSet` says (unchanged while a rig light is missing); fog colour, fog density and background always follow the phase |
| ParkScene.Scene.Animate | src/components/ParkScene/ParkScene.jsx:243-263 | advances the time by min(0.1, delta)·speed modulo 1, refreshes the clock text exactly when time % 500 < 16, and leaves lights, fog and background as `UpdateDayNightCycle` does for the new time (basic intensities and sun position without a rig, `DayNightSet` with one) |
| SkyBox.Branch | src/components/SkyBox/SkyBox.jsx:520-582 | no branch matches exactly at t = 0.2; night is t ≥ 0.8 or t < 0.2; dawn is (0.2, 0.3) |
| SkyBox.Exponent | src/components/SkyBox/SkyBox.jsx:513-586 | at t = 0.2 the exponent is unchanged; elsewhere on [0, 1) it lies in [0.6, 1], and in the day it is 0.6 |
| SkyBox.SunOpacity | src/components/SkyBox/SkyBox.jsx:600-609 | 0 outside (0.25, 0.75), 1 on (0.3, 0.7), in (0, 1) on (0.25, 0.3), above 1 and at most 2 on [0.7, 0.75), and 10 at t = 0.3 |
| SkyBox.MoonOpacity | src/components/SkyBox/SkyBox.jsx:631-641 | 0 on (0.25, 0.75), 1 outside [0.25, 0.75], −10 at exactly 0.25, and 0 at 0.75 |
| SkyBox.CloudOpacity | src/components/SkyBox/SkyBox.jsx:677-698 | cloud opacity lies in [0.4, 0.9], is 0.4 exactly at night, and strictly between in the dawn and dusk windows |
| SkyBox.StarOpacity | src/components/SkyBox/SkyBox.jsx:705-747 | star opacity lies in [0, 1], is 1 exactly at night, and 0 exactly in the full day and at 0.25 and 0.75 |
| SkyBox.BrightStarOpacity | src/components/SkyBox/SkyBox.jsx:713-746 | bright stars are 0.9 times the star opacity |
| SkyBox.CloudX | src/components/SkyBox/SkyBox.jsx:657-670 | after an update a cloud's x is at most 150; it moves by speed·0.01 exactly when that stays within 150, and is −150 exactly when it wraps |
| SkyBox.Sky.UpdateSunMoon | src/components/SkyBox/SkyBox.jsx:589-644 | `SunMoonSet`: the group turns to 2π·t + π; sun, glow (0.3× sun) and moon opacities follow the phase; the low-sun or high-sun colours and scale are set only while the sun is up, and kept otherwise |
| SkyBox.Sky.UpdateCloud | src/components/SkyBox/SkyBox.jsx:655-698 | one cloud drifts by speed·0.01, wraps to −150 exactly when that passes 150 (reported as `wrapped`), moves by its bob in y, shifts z by (draw − 0.5)·10 only when it wraps, and takes the phase's opacity |
| SkyBox.Sky.MoveCloud | src/components/SkyBox/SkyBox.jsx:655-699 | cloud i's turn: it moves as `CloudMoved` says from its position before the frame, and the draw cursor advances exactly when it wraps |
| SkyBox.Sky.UpdateClouds | src/components/SkyBox/SkyBox.jsx:655-699 | `CloudsMoved`: every cloud drifts or wraps in x, moves by its bob in y and takes the phase's opacity; the k-th cloud to wrap (in list order) shifts z by (draw − 0.5)·10 with draw number cursor + k, the others keep z; the cursor advances by the number of wraps; every z stays within ±5 of where it was |
| SkyBox.Sky.UpdateStars | src/components/SkyBox/SkyBox.jsx:702-748 | the star field and every bright star take the phase's opacity |
| SkyBox.Sky.UpdateSky | src/components/SkyBox/SkyBox.jsx:505-749 | without a dome nothing changes and no draw is taken; otherwise the exponent follows `Exponent` and the colours are defined by branch; with the sun/moon group, `SunMoonSet` holds and the sun-position uniform is (100·cos 2πt, 100·sin 2πt, 0), without it the uniform is kept; the clouds move as `CloudsMoved` says (z within ±5); the stars take the phase's opacities |
| Wildlife.Spread | src/components/Wildlife/Wildlife.jsx:328-332 | center + (draw − 0.5)·width lies within width/2 of the centre (butterfly targets, and squirrel targets at 433-435) |
| Wildlife.Uniform | src/components/Wildlife/Wildlife.jsx:330 | low + draw·width lies in [low, low + width) (also the climb height at 441 and the pause at 448) |
| Wildlife.OrbitPosition | src/components/Wildlife/Wildlife.jsx:360-363 | a bird's y stays within 2 of its altitude |
| Wildlife.OrbitOnCircle | src/components/Wildlife/Wildlife.jsx:360-363 | a bird stays on its circle: x² + z² = radius² |
| Wildlife.Bird.Update | src/components/Wildlife/Wildlife.jsx:313-363 | wingPos advances by wingSpeed·delta, the angle by speed·delta, and the bird moves onto its circle at the new angle |
| Wildlife.FlutterWithinSpeed | src/components/Wildlife/Wildlife.jsx:336-354 | a butterfly moves at most its speed in x and z and half of it in y per frame |
| Wildlife.MoveBound | src/components/Wildlife/Wildlife.jsx:352-354 | a stride along a unit-bounded direction moves each coordinate at most its scale (also the squirrel step at 414-415) |
| Wildlife.Butterfly.Update | src/components/Wildlife/Wildlife.jsx:313-354 | the butterfly ends as `UpdatedFrom` its state before: wingPos advanced by wingSpeed·delta; once the timer plus delta passes changeTargetTime the timer is 0 and the target is read from the next three draws (x and z within 4 of the old position, y in [0.5, 2.5)), otherwise the timer grew by delta and the target is kept; then one flutter step toward the target. It reads three draws exactly when it retargets, and a timer in [0, changeTargetTime] stays there |
| Wildlife.ArrivedIff | src/components/Wildlife/Wildlife.jsx:401-404 | the squirrel is close exactly when its squared distance to the target is below 0.04 |
| Wildlife.HeightGapNeverArrives | src/components/Wildlife/Wildlife.jsx:389-442 | a target at least 0.2 above or below is never reached |
| Wildlife.ScurryWithinSpeed | src/components/Wildlife/Wildlife.jsx:407-416 | a moving squirrel keeps its y and moves at most its speed in x and z |
| Wildlife.PauseDraw | src/components/Wildlife/Wildlife.jsx:432-448 | a retarget reads three draws, plus one more for a climb, before the pause draw |
| Wildlife.NewTarget | src/components/Wildlife/Wildlife.jsx:432-442 | a new target is within ±3 of the home tree in x and z, at 0.15 or climbing to [0.5, 2.5), and climbs exactly when its draw is below 0.3 |
| Wildlife.Squirrel.Update | src/components/Wildlife/Wildlife.jsx:389-449 | the squirrel ends as `UpdatedFrom` its state before: moving, it pauses in place with timer 0 within 0.2 of the target and otherwise steps toward it over the ground, keeping target and pause length; paused, it stays in place while the timer grows by delta, and once the timer reaches maxPause it moves again toward `NewTarget` with maxPause drawn in [2, 5) after the target's draws. It reads draws exactly when a pause ends, y never changes, and a climb target keeps it moving |
| Wildlife.Park.Update | src/components/Wildlife/Wildlife.jsx:307-454 | every animal in list order: every bird orbits; every squirrel, then every butterfly, ends as its own update from its state before leaves it, each reading the draws where the animal before it stopped; the returned cursor is where the last butterfly stopped |
| Wildlife.Park.UpdateBirds | src/components/Wildlife/Wildlife.jsx:310-385 | every bird flaps, advances its angle and sits on its circle |
| Wildlife.Park.UpdateSquirrels | src/components/Wildlife/Wildlife.jsx:388-451 | every squirrel ends as `Squirrel.UpdatedFrom` its own state before the loop, reading draws from where the squirrels before it stopped; the result is where the last one stopped; every squirrel keeps its height |
| Wildlife.Squirrel.DrawsEnd | src/components/Wildlife/Wildlife.jsx:429-448 | a squirrel's update reads random draws exactly when its pause ends |
| Wildlife.Park.MoveButterfly | src/components/Wildlife/Wildlife.jsx:313-354 | butterfly i ends as its own update from its state before, reading draws where the butterflies before it stopped, and the cursor moves past its draws |
| Wildlife.Park.UpdateButterflies | src/components/Wildlife/Wildlife.jsx:313-354 | every butterfly ends as `Butterfly.UpdatedFrom` its own state before the loop, reading draws from where the butterflies before it stopped; the result is where the last one stopped; every butterfly flaps and keeps its timer within [0, changeTargetTime] |
| Player.KeyFlag | src/components/Player/Player.jsx:33-87 | W/ArrowUp, A/ArrowLeft, S/ArrowDown, D/ArrowRight and Space each drive exactly their flag; other keys drive none |
| Player.Set | src/components/Player/Player.jsx:33-87 | setting a flag changes that flag and no other |
| Player.PressThenRelease | src/components/Player/Player.jsx:33-87 | when the key's flag was clear, a keydown followed by a keyup restores the flags; other keys change nothing |
| Player.Flat | src/components/Player/Player.jsx:156-174 | a flattened camera vector has no vertical part |
| Player.Direction | src/components/Player/Player.jsx:151-182 | the walking direction is horizontal |
| Player.OppositeKeysCancel | src/components/Player/Player.jsx:151-182 | forward with backward, or left with right, alone give the zero direction |
| Player.Walk | src/components/Player/Player.jsx:184-195 | walking keeps the height, and a zero-length direction does not move |
| Player.ZeroDirectionStays | src/components/Player/Player.jsx:184-195 | the zero direction moves nothing |
| Player.Step | src/components/Player/Player.jsx:151-195 | the horizontal step keeps the height and does nothing without a movement key |
| Player.OppositeKeysStay | src/components/Player/Player.jsx:151-195 | opposite keys alone leave the player in place |
| Player.Player.constructor | src/components/Player/Player.jsx:8-31 | all flags clear, jump allowed, at rest; the camera is raised to height 1.8 exactly when the controls were created (every prop present), and left where it is when the effect returned early |
| Player.Player.OnKeyDown | src/components/Player/Player.jsx:33-61 | sets the key's flag; Space sets vy to 6 and clears canJump only when a jump is allowed |
| Player.Player.OnKeyUp | src/components/Player/Player.jsx:63-87 | clears the key's flag and nothing else |
| Player.Player.OnLockChange | src/components/Player/Player.jsx:92-104 | the controls are enabled exactly while the pointer is locked |
| Player.Player.Update | src/components/Player/Player.jsx:136-204 | no-op without enabled controls; otherwise vy drops by 9.8·delta, then the walk, then y += vy·delta; below 1.8 it lands with vy 0 and a jump allowed, so y ≥ 1.8 afterwards |
| InteractiveObjects.DiscPointInside | src/components/InteractiveObjects/InteractiveObjects.jsx:76-82 | a point at radius draw·r along any angle lies strictly inside the disc of radius r |
| InteractiveObjects.InitialInBasin | src/components/InteractiveObjects/InteractiveObjects.jsx:75-83 | initial particles lie within radius 0.8, at heights in [1.0, 2.5) |
| InteractiveObjects.RespawnInJet | src/components/InteractiveObjects/InteractiveObjects.jsx:126-135 | a restarted particle lies within radius 0.2, at a height in [1.7, 2.2) |
| InteractiveObjects.Put | src/components/InteractiveObjects/InteractiveObjects.jsx:130-134 | writing a particle keeps the buffer length and stores that particle |
| InteractiveObjects.FallenCount | src/components/InteractiveObjects/InteractiveObjects.jsx:123-136 | no more particles restart than there are |
| InteractiveObjects.AdvanceAboveBasin | src/components/InteractiveObjects/InteractiveObjects.jsx:123-136 | after a frame a particle is at or above 0.8; one that did not restart kept its x and z; one that did is in [1.7, 2.2) |
| InteractiveObjects.FrameStep | src/components/InteractiveObjects/InteractiveObjects.jsx:123-136 | the frame grows one particle at a time, and particle n is untouched before its turn |
| InteractiveObjects.FrameParticle | src/components/InteractiveObjects/InteractiveObjects.jsx:123-136 | each particle is moved by its own rule, with the draws of earlier restarts skipped |
| InteractiveObjects.FrameSettled | src/components/InteractiveObjects/InteractiveObjects.jsx:123-136 | after a whole frame every particle y is ≥ 0.8 |
| InteractiveObjects.Zeros | src/components/InteractiveObjects/InteractiveObjects.jsx:73 | a new buffer is zero-filled |
| InteractiveObjects.FillAll | src/components/InteractiveObjects/InteractiveObjects.jsx:75-83 | every particle of a new fountain is at its drawn initial place |
| InteractiveObjects.Fountain.constructor | src/components/InteractiveObjects/InteractiveObjects.jsx:23-111 | 300 particles at their drawn places, group at (x, 0, z), active and visible |
| InteractiveObjects.Fountain.Interact | src/components/InteractiveObjects/InteractiveObjects.jsx:112-116 | flips active, shows the particles exactly while active, and returns "Fountain activated" or "Fountain deactivated", so two calls restore the state |
| InteractiveObjects.Fountain.Update | src/components/InteractiveObjects/InteractiveObjects.jsx:117-139 | an inactive fountain changes nothing; an active one applies the frame, reading three draws per restart, and leaves every particle at or above 0.8 |
| InteractiveObjects.Fountain.Fall | src/components/InteractiveObjects/InteractiveObjects.jsx:123-136 | the particle loop rewrites the buffer to the frame |
| InteractiveObjects.Fountain.Drop | src/components/InteractiveObjects/InteractiveObjects.jsx:124-135 | one particle drops by 2·delta and restarts when below 0.8 |
| InteractiveObjects.Objects.constructor | src/components/InteractiveObjects/InteractiveObjects.jsx:146-149 | two fountains, at (8, 8) and (−6, −6), both active and visible with 300 particles; the first one's particles take their draws from `cursor` on, the second one's from where the first stopped |
| InteractiveObjects.Objects.Update | src/components/InteractiveObjects/InteractiveObjects.jsx:173-179 | every fountain in list order: an inactive one keeps its buffer; an active one's buffer becomes its `Frame` from the buffer it had, reading draws where the fountains before it stopped, and ends settled; the result is where the last fountain stopped |
| InteractiveObjects.Objects.UpdateOne | src/components/InteractiveObjects/InteractiveObjects.jsx:175-177 | fountain i ends `Dropped` (its own update from its buffer before) and the cursor moves past its draws |
| InteractiveObjects.Objects.FindNearest | src/components/InteractiveObjects/InteractiveObjects.jsx:181-196 | returns the object nearest the player among those strictly closer than maxDistance, the earliest on a tie, or none when every object is at least maxDistance away |
| UIOverlay.Hours | src/components/UIOverlay/UIOverlay.jsx:55 | for t ≥ 0 the hour ⌊(24t) mod 24⌋ lies in [0, 23] |
| UIOverlay.Minutes | src/components/UIOverlay/UIOverlay.jsx:56 | for t ≥ 0 the minute ⌊(1440t) mod 60⌋ lies in [0, 59] |
| UIOverlay.FormatShape | src/components/UIOverlay/UIOverlay.jsx:54-61 | the display is five characters, two digits, ':' and two digits, reading back as the hour and minute |
| UIOverlay.MinutesSinceMidnight | src/components/UIOverlay/UIOverlay.jsx:55-56 | within one day, 60·hours + minutes = ⌊1440t⌋ |
| UIOverlay.FormatMidnight | src/components/UIOverlay/UIOverlay.jsx:54-61 | t = 0 shows "00:00" |
| UIOverlay.FormatNoon | src/components/UIOverlay/UIOverlay.jsx:54-61 | t = 0.5 shows "12:00" |
| UIOverlay.HoursPeriodic | src/components/UIOverlay/UIOverlay.jsx:55 | the hour repeats every whole day |
| UIOverlay.MinutesPeriodic | src/components/UIOverlay/UIOverlay.jsx:56 | the minute repeats every whole day |
| UIOverlay.FormatPeriodic | src/components/UIOverlay/UIOverlay.jsx:54-61 | formatTimeOfDay(t + 1) = formatTimeOfDay(t) |
| JsText.NatToStringValue | src/components/UIOverlay/UIOverlay.jsx:57 | the decimal digits of `String(n)` read back as n |
| JsText.IntToString | src/components/UIOverlay/UIOverlay.jsx:57 | `String(i)` is the digits of i, after a minus sign when i is negative |
| JsText.PadStart | src/components/UIOverlay/UIOverlay.jsx:57-60 | padStart fills on the left up to the length and keeps the string as its suffix |
| JsText.TwoDigits | src/components/UIOverlay/UIOverlay.jsx:57-60 | a number below 100 padded to two places is its tens digit and its units digit |
| JsText.ClockShape | src/components/UIOverlay/UIOverlay.jsx:57-60 | for two-digit parts the clock text is "HH:MM" and reads back as the parts |

## Left out

- Mesh, geometry, material, canvas-texture and light construction (`THREE.*Geometry`, `Mesh`, `PointsMaterial`, colours as objects, `computeVertexNormals`). These are library calls. Lights and meshes appear only as the fields the update code writes.
- The raycast in `getGroundHeight` (`raycaster.intersectObjects`). Its result is a parameter: the sequence of hit heights, in hit order. The terrain height under straight paths is likewise a parameter function.
- The React lifecycle: `useEffect` setup and cleanup, `useImperativeHandle`, JSX, CSS, DOM listeners, pointer lock and `requestAnimationFrame`. The handlers and per-frame updates are modelled as methods called directly. The message-clearing `setTimeout` in the park scene is not modelled.
- The InteractiveObjects effect cleanup (`InteractiveObjects.jsx:151-170`), which only disposes meshes.
- Water's `update` (`Water.jsx:719-862`). It calls helpers that are out of its scope, and it removes ripples while traversing.
- The per-vertex rock jitter (`Water.jsx:240-244`) and the pebble vertex loop (`Water.jsx:301`). Both only reshape geometry.
- SkyBox's `update` (`SkyBox.jsx:806-810`), which calls an out-of-scope `updateSky`.
- The star twinkle and size oscillation, which read an undefined `userData.baseScale`.
- The sky's colour `lerp` and HSL arithmetic. The dome records only whether its colours were defined.
- `Date.now()` in the cloud bob. It is the parameter `bob(i)`.
- The Pathways bench block (`Pathways.jsx:696-843`). It redeclares its parameter, which JavaScript rejects.
- Tree, Bench, Parkour and KeyboardTest. Their logic repeats the ground-height filter, the cumulative-probability choice and the key mapping modelled here.
- Floating-point rounding, `Float32Array` precision and NaN. All numbers are exact reals.
- The exact values of sin, cos, sqrt and pow. They are parameters with bounding laws.
- The distributions of `Math.random()`. Draws are a parameter stream.
- Camera orientation. The player's look and side vectors after `applyQuaternion` are parameters of `Player.Player.Update`.
- The `removed` event dispatched by `Object3D.remove`.
- ThreeUtils.DisposeObject: states that the node's own geometry and material disposals come first in the ledger. It does not state the full disposal order of the subtree. The children are drained and detached, but only the node itself is stated to have no children afterwards.
- ParkScene.Scene.UpdateDayNightCycle: the fog always exists in the model, so `updateFog`'s early return on a missing fog (`ParkScene.jsx:320`) is not modelled.
- Pathways.PlaceBorderElements: states each element's index, side, offset, type and scale, and which draw each comes from, but not its world position along the curve or its x/z jitter (the two draws are consumed but not recorded). The same sampler drives the straight-path loop (`Pathways.jsx:1160-1210`) with the step count as the limit.
- Pathways.SideTurn: the mesh builders (`createMesh`) consume draws of their own (rock vertex jitter and rotation at `Pathways.jsx:866-874` and `894-896`, flower petal count and turn at `974` and `1003`, grass blade count and blade shapes at `1024-1058`). The model does not compute their count: it is the parameter `meshDraws(kind, first draw)`, and the next side's draws start after them.
- Ground.AddGroundPatches: states that every placed patch is valid and within its type's ranges, and bounds the total. It does not state which attempt placed each patch.
- Wildlife.Butterfly.Update: the mesh `lookAt` turn and the wing rotations are rendering only. The same holds for the bird's facing and the squirrel's tail swish.
- InteractiveObjects.Objects.FindNearest: returns the index of the nearest fountain rather than the object. A caller that omits `maxDistance` passes `DefaultReach` (3).
