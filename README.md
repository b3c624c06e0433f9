# Particle visualiser core, modelled in Dafny

The program is a browser particle visualiser. Fifteen thousand particles morph between six shapes: a text silhouette, a heart, fireworks, a rabbit line drawing, snow crystals and a rose. A hand-gesture classifier cycles through the shapes. This model covers four parts of it:

- **Store**: the shape-selection store (`store.ts`). It is a record with `currentShape`, `handFactor` and `showUI`. Its four actions are pure functions on that record. The laws of the fixed shape cycle are proved about them.
- **HandControl**: the gesture classifier (`processLandmarks` of `components/HandController.tsx`). It is a class with the two latch fields `isClosed` and `lastTriggerTime`. It is fed the pinch distance, the span distance and the clock as inputs. The method `ProcessLandmarks` is tied to a pure transition `Step`. From `Step` the model proves:
  - the clamp of the scale factor;
  - the if-and-only-if condition for an event;
  - the hysteresis of the latch;
  - the spacing of events by the strict 1000 ms cooldown, over any run.
- **Particles**: the blend engine (`components/Particles.tsx`). It is a class over the four `Float32Array` buffers (current and target positions, current and target colours), the size buffer and the cloud's scale. Its parts are these:
  - The constructor copies the initial buffers and fills the sizes in a loop.
  - `Retarget` replaces only the targets.
  - `Tick` smooths the scale, then moves every current component 0.08 of the way to its target, in place, with loop invariants.
  - `Mount` builds the system and then runs the target effect once, as the component does on mount.
  - Pure lemmas give the contraction by exactly 0.92 per frame and 0.92^n after n frames. They also give less than a millionth of the distance left from frame 200 on, betweenness, fixed points and the scale bounds.
- **Geometry and the generators**: the index structure of `utils/geometry.ts`. Each generator's `for`/`while` loops are methods that push onto a sequence. Each method is proved equal to a specification function. Layout lemmas about those functions give the fixed index ranges:
  - text sampling on the stride-4 grid, then cyclic padding;
  - the burst, segment, flake, petal, stem and aura ranges;
  - every generator yielding exactly 15000 points.

  `getPointsForShape` and `getColorsForShape` fill arrays in loops. They are proved equal to `Flatten` of the point and colour sequences. Lemmas state the colour class of each index range, including the ranges where colours and positions disagree.

Trigonometry, `Math.pow` and `Math.acos` are the fields of a `Maths` record: four uninterpreted real functions. `Math.random` is a parameter `rand: nat -> Unit`, where `rand(k)` is the k-th draw of one call and lies in [0, 1). The canvas image of the text shape is an `Option<seq<byte>>`, where `None` stands for a missing 2D context. THREE's colour conversion is an oracle `toRgb: Colour -> Vec3` over an abstract colour class `Hsl(h, s, l) | Hex(rgb)`. All arithmetic is on `real`.

Facts about the program that the model keeps as the code has them:
- Each fireworks burst has `40 * floor(count / 40)` points, so the bursts hold 4000, 2480 and 2480 points.
- The trails end at index 8960. The colour bands, however, are cut at 4000, 6500 and 9000. `ShapeBuffers.FireworksBandsOffset` proves that indices 6480-6499 are right-burst points coloured cyan. It also proves that indices 8960-8999 are background points coloured purple.
- Only the text shape pads cyclically. The heart yields exactly `COUNT` points because its loop runs `COUNT` times, with no padding and no slice. Fireworks, rabbit, snow and rose pad with their own background loops and then `slice(0, COUNT)`.
- The cooldown is strict: more than 1000 ms must pass.
- The rabbit drawing holds 10700 points, but the colour cutoff is 11000. `ShapeBuffers.RabbitAuraColouredAsLine` proves that aura points 10700-10999 are coloured as line.
- The hand thresholds are those of `components/HandController.tsx:106-107`: a pinch below 0.06, a fist span below 0.15, an open span above 0.25. The comment at lines 95-96 gives 0.05 for a pinch and 0.15 for an open hand; neither matches the code.
- The target-replacing effect (`components/Particles.tsx:92-100`) also runs once right after mount. It draws the initial shape's buffers a second time, so the targets start as a fresh draw of the same shape, and the current buffers blend towards it.

## Model

| member | source | states |
|---|---|---|
| Store.IndexOf | store.ts:28 | `indexOf` yields -1 or a valid position of the order |
| Store.IndexOfCorrect | store.ts:28 | the result is -1 exactly when the shape is absent; otherwise it is the first position holding the shape |
| Store.Position | store.ts:15-22 | every shape has a position in `SHAPE_ORDER` that holds it |
| Store.OrderIsPermutation | store.ts:15-22 | every shape occurs exactly once in `SHAPE_ORDER`, so `indexOf` never yields -1 |
| Store.Initial | store.ts:24-35 | the initial state is Text, hand factor 1, UI shown |
| Store.SetShape | store.ts:26 | selects the given shape and leaves the other two fields unchanged |
| Store.NextShape | store.ts:27-31 | leaves hand factor and UI flag unchanged |
| Store.SetHandFactor | store.ts:33 | stores the factor verbatim, with no clamping, and leaves the other fields unchanged |
| Store.ToggleUI | store.ts:35 | negates `showUI` and leaves the other fields unchanged |
| Store.NextShapeFollowsOrder | store.ts:14-31 | `nextShape` moves Text→Heart→Snow→Fireworks→Rabbit→Rose→Text; as a formula, `SHAPE_ORDER[(index + 1) % 6]` |
| Store.NextShapePosition | store.ts:27-30 | one step moves one place along the order, modulo 6 |
| Store.NextShapeIsBijection | store.ts:15-30 | an independent predecessor table undoes `nextShape` on both sides |
| Store.NextShapeInjective | store.ts:27-30 | two states with the same successor are equal |
| Store.IterateAdvances | store.ts:27-30 | an action that moves one place moves n places in n steps |
| Store.NextShapeNPosition | store.ts:27-30 | n steps move n places along the order, modulo 6 |
| Store.NextShapeNKeepsOtherFields | store.ts:27-30 | any number of `nextShape` steps leaves hand factor and UI flag unchanged |
| Store.CycleCloses | store.ts:14-30 | six steps return the whole state to where it started |
| Store.NoShorterCycle | store.ts:15-30 | one to five steps always change the shape |
| Store.ToggleUITwice | store.ts:35 | toggling twice is the identity |
| Store.SetShapeOverrides | store.ts:26 | a later selection overrides an earlier one |
| Store.IndependentActionsCommute | store.ts:26-35 | actions on different fields commute |
| HandControl.InitialLatch | components/HandController.tsx:11-14 | the latch starts not closed, with last trigger time 0 |
| HandControl.Clamp | components/HandController.tsx:124 | `max(0.5, min(x, 2))` lies in [0.5, 2]; it is x inside the range and the nearer bound outside it |
| HandControl.Step | components/HandController.tsx:70-125 | covers every case of one sample: (1) the factor is 1.0 with no hand and the clamp of `0.8 + 2 * span` otherwise; (2) an event fires exactly when a hand is present, the latch was closed, `span > 0.25` and `now - last > 1000`; (3) firing records `now` and not firing keeps the old time; (4) no hand leaves the latch unchanged; (5) closed readings set the latch, open readings clear it and the dead zone keeps it |
| HandControl.PinchWhileSpreadFiresAndStaysClosed | components/HandController.tsx:106-120 | a pinch with a spread hand can fire and still leaves the latch closed |
| HandControl.Run | components/HandController.tsx:70-125 | repeated `processLandmarks` calls on a sequence of samples: the final latch and the clock readings of the events, at most one per sample |
| HandControl.RunEventsAreSpaced | components/HandController.tsx:104-116 | across any run of samples: the first event is more than 1000 ms after the latch's last trigger; each later event is more than 1000 ms after the one before; the final latch records the last event |
| HandControl.NoEventWithinCooldown | components/HandController.tsx:106-116 | a sample within 1000 ms of an event fires nothing |
| HandControl.CloseThenOpenFiresOnce | components/HandController.tsx:106-120 | a closed reading followed by an open one after the cooldown fires exactly one event; a second open reading within the cooldown fires nothing more |
| HandControl.Dispatch | components/HandController.tsx:113-124 | the store receives the clamped factor and advances one shape exactly when an event fired |
| HandControl.HandController.constructor | components/HandController.tsx:11-14 | the controller starts not closed, with last trigger time 0 |
| HandControl.HandController.ProcessLandmarks | components/HandController.tsx:70-125 | one frame updates the fields and yields the factor and event exactly as `Step` does: no hand changes nothing; the firing condition and the new trigger time are as above; the factor lies in [0.5, 2] |
| Geometry.RandomOnSphere | utils/geometry.ts:17-26 | the point at radius r with azimuth `2πu` and polar angle `acos(2v - 1)`, from two draws; a definition the rose aura uses, with no contract of its own |
| Geometry.Spread | utils/geometry.ts:128-130 | `(u - 0.5) * w` lies in [-w/2, w/2) |
| Geometry.Flatten | utils/geometry.ts:332-338 | three components per point |
| Geometry.FlattenAt | utils/geometry.ts:335-337 | components `3i`, `3i+1` and `3i+2` are x, y and z of point i |
| Geometry.FlattenAppend | utils/geometry.ts:332-338 | flattening distributes over concatenation |
| Geometry.UnflattenFlatten | utils/geometry.ts:332-338 | regrouping a flattened buffer gives back the points |
| Geometry.FlattenUnflatten | utils/geometry.ts:332-338 | flattening the regrouped triples gives back any buffer whose length is a multiple of 3 |
| Geometry.UnflattenAt | utils/geometry.ts:335-337 | triple i of a buffer is made of components `3i`, `3i+1` and `3i+2` |
| TextPoints.Silhouette | utils/geometry.ts:51-63 | the row-major points of the bright cells of the 256 × 256 grid; the reference definition that SilhouetteSound, SilhouetteComplete and SilhouetteBound are about |
| TextPoints.CellStep | utils/geometry.ts:53-61 | visiting cell (x, y) of the grid appends its point exactly when the byte at `(y * 1024 + x) * 4` exceeds 128 |
| TextPoints.SampleSilhouette | utils/geometry.ts:51-63 | the nested stride-4 loop yields the row-major silhouette |
| TextPoints.SilhouettePrefixLength | utils/geometry.ts:52-63 | at most one point per visited cell |
| TextPoints.SilhouetteBound | utils/geometry.ts:51-63 | at most 65536 points |
| TextPoints.SilhouetteSound | utils/geometry.ts:52-61 | every kept point is the point of a visited bright cell |
| TextPoints.SilhouetteComplete | utils/geometry.ts:52-61 | every visited bright cell's point is kept |
| TextPoints.SilhouettePrefixGrows | utils/geometry.ts:52-63 | the sampled sequence only grows; earlier points are never removed |
| TextPoints.DarkImageIsEmpty | utils/geometry.ts:55 | an image with no byte above 128 yields no points |
| TextPoints.PadToCount | utils/geometry.ts:65-69 | exactly 15000 entries, entry i being point `i % len`; all entries are undefined when the silhouette is empty |
| TextPoints.Padded | utils/geometry.ts:65-69 | the padded sequence has exactly 15000 entries |
| TextPoints.GenerateTextPoints | utils/geometry.ts:31-71 | no context gives `[]`; otherwise the silhouette padded cyclically to 15000, or 15000 undefined entries when it is empty |
| HeartPoints.LayerScale | utils/geometry.ts:80-81 | the layer scale is 1.0, 0.9 or 0.8 |
| HeartPoints.Heart | utils/geometry.ts:74-86 | n points for n iterations |
| HeartPoints.GenerateHeart | utils/geometry.ts:74-86 | the loop yields the heart sequence of exactly 15000 points |
| HeartPoints.HeartLayout | utils/geometry.ts:76-84 | point i is the curve point of its own parameter, scaled by one of the three layers; its depth lies in [-1, 1) |
| FireworksPoints.TrailPoints | utils/geometry.ts:107-114 | i points after i steps of a trail |
| FireworksPoints.BurstTrailsLength | utils/geometry.ts:92-116 | t trails hold `t * floor(count / 40)` points |
| FireworksPoints.BurstTrailsAt | utils/geometry.ts:96-115 | point j of a burst is step `j % n` of trail `j / n`, where n = `floor(count / 40)` |
| FireworksPoints.Trail | utils/geometry.ts:107-114 | the inner loop yields one trail |
| FireworksPoints.CreateBurst | utils/geometry.ts:92-116 | appends the 40 trails, using three draws per trail |
| FireworksPoints.SkyPoint | utils/geometry.ts:127-131 | a background point lies in the 120 × 120 × 80 box |
| FireworksPoints.BurstLayout | utils/geometry.ts:92-123 | the bursts hold 4000, 2480 and 2480 points, 8960 in all |
| FireworksPoints.Sky | utils/geometry.ts:126-132 | n background points |
| FireworksPoints.FillSky | utils/geometry.ts:126-134 | pads with background points up to 15000, or cuts to 15000 |
| FireworksPoints.GenerateFireworks | utils/geometry.ts:89-135 | the generator yields the fireworks sequence |
| FireworksPoints.Fireworks | utils/geometry.ts:89-135 | the three bursts, using draws from 0, 120 and 240, then background from draw 360, padded or cut to 15000; the definition that FireworksLayout is about |
| FireworksPoints.FireworksLayout | utils/geometry.ts:118-134 | exactly 15000 points: indices [0, 4000), [4000, 6480) and [6480, 8960) are the three bursts; [8960, 15000) is background |
| FireworksPoints.FireworksSky | utils/geometry.ts:126-134 | every index from 8960 on is a background point inside the box |
| FireworksPoints.FireworksTrailPoint | utils/geometry.ts:92-123 | every index below 8960 is a trail point of the burst its range names |
| RabbitPoints.LinePoint | utils/geometry.ts:150-158 | a stroke point lies in the plane z = 0, within the ±0.025 jitter of its path point |
| RabbitPoints.Line | utils/geometry.ts:148-159 | n points for n steps of a stroke |
| RabbitPoints.DrawLine | utils/geometry.ts:142-160 | `drawLine` appends `density` points, using two draws each |
| RabbitPoints.EyePoint | utils/geometry.ts:209-211 | an eye point lies in the plane z = 0 |
| RabbitPoints.Eye | utils/geometry.ts:208-212 | n eye points |
| RabbitPoints.DrawEye | utils/geometry.ts:208-212 | the eye loop appends 200 points, using two draws each |
| RabbitPoints.AuraPoint | utils/geometry.ts:216-220 | an aura point's depth lies in [-10, 10) |
| RabbitPoints.Aura | utils/geometry.ts:215-221 | n aura points |
| RabbitPoints.FillAura | utils/geometry.ts:215-223 | pads with aura points up to 15000, or cuts to 15000 |
| RabbitPoints.GenerateRabbit | utils/geometry.ts:138-224 | the generator yields the rabbit sequence |
| RabbitPoints.LineInPlane | utils/geometry.ts:154-158 | every stroke lies in the plane z = 0 |
| RabbitPoints.DrawingInPlane | utils/geometry.ts:164-212 | the seven strokes and the eye hold 10700 points, all in the plane z = 0 |
| RabbitPoints.Rabbit | utils/geometry.ts:138-224 | the drawing, then aura from draw 21400, padded or cut to 15000; the definition that RabbitLayout is about |
| RabbitPoints.RabbitLayout | utils/geometry.ts:164-223 | exactly 15000 points: [0, 10700) is the drawing, at z = 0; the rest is aura, with depth in [-10, 10) |
| RabbitPoints.DrawingEye | utils/geometry.ts:164-212 | the last 200 points of the drawing, [10500, 10700), are the eye |
| SnowPoints.FlakeOf | utils/geometry.ts:235-238 | flake centres lie in the 90 × 70 × 50 box and scales in [2, 4) |
| SnowPoints.PointDraws | utils/geometry.ts:241-254 | each crystal point takes three draws, or five when feathered |
| SnowPoints.CrystalPoint | utils/geometry.ts:241-255 | a crystal point lies in its flake's plane, at the flake's depth |
| SnowPoints.PointAt | utils/geometry.ts:240-256 | the point drawn from stream position k lies at the flake's depth |
| SnowPoints.PointStart | utils/geometry.ts:240-256 | the draw position after i points is at least three per point further on |
| SnowPoints.FlakeSamples | utils/geometry.ts:240-256 | one sample per point of a flake |
| SnowPoints.Samples | utils/geometry.ts:234-257 | 200 samples per flake |
| SnowPoints.DustPoint | utils/geometry.ts:261-265 | a dust point lies in the 150 × 150 × 80 box |
| SnowPoints.Dust | utils/geometry.ts:260-266 | n dust points |
| SnowPoints.DrawPoints | utils/geometry.ts:240-256 | the inner loop yields a flake's 200 points and advances the draw stream past them |
| SnowPoints.DrawFlake | utils/geometry.ts:234-256 | one flake: four draws for centre and scale, then its 200 points |
| SnowPoints.FillDust | utils/geometry.ts:260-267 | pads with dust up to 15000, or cuts to 15000 |
| SnowPoints.GenerateSnow | utils/geometry.ts:227-268 | the generator yields the snow sequence |
| SnowPoints.SamplesFlake | utils/geometry.ts:234-257 | sample `200q + r` belongs to flake q |
| SnowPoints.FlakesDepth | utils/geometry.ts:234-257 | the 3000 flake points lie at their own flake's depth |
| SnowPoints.DustBox | utils/geometry.ts:260-267 | snow indices from 3000 on are dust points inside the box |
| SnowPoints.Snow | utils/geometry.ts:227-268 | the 15 flakes' samples rendered, then dust from the draw after the last flake; the definition that SnowLayout is about |
| SnowPoints.SnowLayout | utils/geometry.ts:227-267 | exactly 15000 points: [0, 3000) are the 15 flakes, point i at the depth of flake `i / 200`, in [-25, 25); the rest is dust in the box |
| SnowPoints.FlakeIsFlat | utils/geometry.ts:234-256 | two points of one flake share their depth |
| RosePoints.BudPoint | utils/geometry.ts:277-280 | the bud's height is non-negative, and below 5 for the 2000 bud points |
| RosePoints.BudRises | utils/geometry.ts:279 | each bud point sits higher than every earlier one |
| RosePoints.Bud | utils/geometry.ts:276-281 | n bud points |
| RosePoints.Lobes | utils/geometry.ts:289 | the lobe count `3 + L % 3` lies in {3, 4, 5} |
| RosePoints.Layer | utils/geometry.ts:291-298 | n points in a petal layer |
| RosePoints.Petals | utils/geometry.ts:286-299 | l layers hold `1000 * l` points |
| RosePoints.StemPoint | utils/geometry.ts:302-307 | a stem point lies at z = 0 with y in (-25, -5] |
| RosePoints.Stem | utils/geometry.ts:301-308 | n stem points |
| RosePoints.Aura | utils/geometry.ts:310-314 | n aura points |
| RosePoints.DrawBud | utils/geometry.ts:275-281 | the bud loop yields 2000 points |
| RosePoints.DrawLayer | utils/geometry.ts:286-298 | the inner loop yields one layer of `floor(8000 / 8)` points |
| RosePoints.DrawPetals | utils/geometry.ts:283-299 | the layer loop yields the 8 layers |
| RosePoints.FillStem | utils/geometry.ts:301-308 | pads with stem points up to 11000, using one draw each |
| RosePoints.FillAura | utils/geometry.ts:310-316 | pads with aura points up to 15000, or cuts to 15000 |
| RosePoints.GenerateRose | utils/geometry.ts:271-317 | the generator yields the rose sequence |
| RosePoints.PetalsAt | utils/geometry.ts:283-299 | petal index `1000L + r` is point r of layer L |
| RosePoints.FlowerAt | utils/geometry.ts:275-299 | [0, 2000) are bud points; [2000, 10000) are petal points of layer `(i - 2000) / 1000` |
| RosePoints.RoseParts | utils/geometry.ts:271-316 | exactly 15000 points: flower [0, 10000), stem [10000, 11000), aura [11000, 15000) |
| RosePoints.Rose | utils/geometry.ts:271-317 | bud and petals, then 1000 stem points from draw 0, then aura from draw 1000; the definition that RoseParts and RoseLayout are about |
| RosePoints.RoseLayout | utils/geometry.ts:275-316 | the part each index belongs to: bud in [0, 2000), with height in [0, 5); petals in [2000, 10000), of a layer below 8; stem in [10000, 11000), at z = 0; aura from 11000 on |
| ShapeBuffers.GeneratedLength | utils/geometry.ts:322-330 | every generator other than text yields exactly 15000 points |
| ShapeBuffers.Defined | utils/geometry.ts:324-328 | wrapping generated points keeps their number |
| ShapeBuffers.PointOrZero | utils/geometry.ts:334 | the `new Vector3()` default: the point when it is defined, otherwise the origin |
| ShapeBuffers.Particles | utils/geometry.ts:333-334 | exactly 15000 particles |
| ShapeBuffers.Positions | utils/geometry.ts:319-340 | the positions buffer holds `3 * 15000` components |
| ShapeBuffers.Generate | utils/geometry.ts:320-330 | the switch runs the shape's generator |
| ShapeBuffers.FillPositions | utils/geometry.ts:332-339 | the loop writes a fresh buffer equal to the flattened particles |
| ShapeBuffers.GetPointsForShape | utils/geometry.ts:319-340 | a fresh buffer holding the shape's positions |
| ShapeBuffers.PositionsAt | utils/geometry.ts:333-338 | components `3i`, `3i+1` and `3i+2` are the coordinates of point i, or zero when it is undefined |
| ShapeBuffers.PositionsRoundTrip | utils/geometry.ts:319-340 | for every shape but text, regrouping the buffer gives back the generator's points |
| ShapeBuffers.EmptyTextIsZero | utils/geometry.ts:332-338 | no context, or an empty silhouette, yields all-zero positions |
| ShapeBuffers.TextPositionsCycle | utils/geometry.ts:332-338 | text particle i sits at silhouette point `i % len` |
| ShapeBuffers.LightnessVar | utils/geometry.ts:347 | the lightness variation lies in [-0.1, 0.1) |
| ShapeBuffers.Draws | utils/geometry.ts:346-396 | each particle takes one draw, or two where a second `Math.random()` is taken |
| ShapeBuffers.DrawStart | utils/geometry.ts:346-396 | particle i's first draw is at least at position i |
| ShapeBuffers.DrawStartStep | utils/geometry.ts:346-396 | each particle's first draw follows all the draws of the particles before it |
| ShapeBuffers.ColourOf | utils/geometry.ts:349-396 | the colour class of particle i by shape and index range, from its lightness draw and its second draw; the definition that the band lemmas are about |
| ShapeBuffers.Paint | utils/geometry.ts:346-401 | one colour per particle |
| ShapeBuffers.Colours | utils/geometry.ts:342-403 | the colour buffer holds `3 * 15000` components |
| ShapeBuffers.PickColour | utils/geometry.ts:347-396 | the switch picks the colour class of particle i and consumes its draws |
| ShapeBuffers.GetColorsForShape | utils/geometry.ts:342-403 | a fresh buffer holding the shape's colours |
| ShapeBuffers.ColoursAt | utils/geometry.ts:398-400 | components `3i` to `3i+2` are the RGB values of particle i's colour class |
| ShapeBuffers.FireworksBands | utils/geometry.ts:357-366 | each band of fireworks colours holds exactly its index range: red [0, 4000), cyan [4000, 6500), purple [6500, 9000), random hue after; the bands' lightness lies in [0.5, 0.7) |
| ShapeBuffers.FireworksBandsOffset | utils/geometry.ts:358-363 | 6480-6499 are right-burst points coloured cyan; 8960-8999 are background points coloured purple |
| ShapeBuffers.RabbitAuraColouredAsLine | utils/geometry.ts:369-374 | aura points 10700-10999 get the line green |
| ShapeBuffers.RabbitBands | utils/geometry.ts:369-381 | below 11000 the colour is green; above, it is orange, yellow or white, exactly by the draw's thirds at 0.4 and 0.7 |
| ShapeBuffers.RoseBands | utils/geometry.ts:388-394 | the flower and stem are white; each aura point is white exactly when its draw exceeds 0.5, and purple otherwise |
| ShapeBuffers.UniformBands | utils/geometry.ts:349-386 | text, heart and snow give every particle one hue and saturation, with lightness within 0.2 of each other |
| Particles.Approach | components/Particles.tsx:121-122 | one blend step for one component; the new value lies between the old one and the target |
| Particles.ApproachContracts | components/Particles.tsx:121-122 | one frame multiplies the distance to the target by exactly 0.92 |
| Particles.ApproachFixed | components/Particles.tsx:121-122 | a component at its target stays there |
| Particles.ApproachNDistance | components/Particles.tsx:120-123 | after n frames with a fixed target, the distance is 0.92^n times the original |
| Particles.Pow200 | components/Particles.tsx:115 | 0.92^200 is below 10^-6 |
| Particles.PowTail | components/Particles.tsx:115 | for every n >= 200, 0 < 0.92^n < 10^-6 |
| Particles.Converges200 | components/Particles.tsx:120-123 | from 200 frames on, with a fixed target, less than a millionth of the starting distance to the target is left |
| Particles.ApproachNBetween | components/Particles.tsx:120-123 | after n frames, a component lies between its start and its target |
| Particles.Blend | components/Particles.tsx:120-123 | one frame keeps the buffer's length |
| Particles.BlendN | components/Particles.tsx:120-123 | n frames keep the buffer's length |
| Particles.BlendNAt | components/Particles.tsx:120-123 | n frames on a buffer act on each component on its own |
| Particles.BlendFixed | components/Particles.tsx:121-122 | a buffer equal to its target is fixed by a frame |
| Particles.AtRestStays | components/Particles.tsx:120-123 | a buffer that has reached its target stays there for as many frames as the target stays |
| Particles.Lerp | components/Particles.tsx:117 | `THREE.MathUtils.lerp`; for a weight in [0, 1] the result lies between the two ends |
| Particles.Smooth | components/Particles.tsx:117-118 | the smoothed scale covers a tenth of the distance to the hand factor: `new - hand == 0.9 * (old - hand)` |
| Particles.SmoothBounds | components/Particles.tsx:117-118 | `lerp(scale, hand, 0.1)` stays in [0.5, 2] when both inputs do |
| Particles.Size | components/Particles.tsx:69 | a size lies in [0.5, 1) |
| Particles.Sizes | components/Particles.tsx:67-69 | one size per particle, each in [0.5, 1) |
| Particles.FillSizes | components/Particles.tsx:67-69 | the sizes loop fills a fresh buffer, particle i from draw i |
| Particles.CopyOf | components/Particles.tsx:77-80 | `Float32Array.from` yields a fresh copy |
| Particles.ParticleSystem.constructor | components/Particles.tsx:65-81 | current and target buffers are fresh copies of the same initial positions and colours; there is one size per particle, and the scale starts at 1 |
| Particles.Mount | components/Particles.tsx:61-100 | the memoised set-up and the effect's first run: the current buffers hold the first draw of the initial shape's positions and colours; the targets hold a second, fresh draw of the same shape; there are 15000 sizes and the scale is 1 |
| Particles.ParticleSystem.Retarget | components/Particles.tsx:92-100 | the new shape's buffers replace the targets wholesale; the current buffers, the sizes and the scale are untouched |
| Particles.ParticleSystem.Tick | components/Particles.tsx:102-123 | one frame: the scale is smoothed; every current component takes one blend step towards its target, for positions and colours alike; targets, sizes and lengths are unchanged |

## Left out

- Coordinate values. Sines, cosines, `Math.acos` and `Math.pow` are uninterpreted fields of `Maths`. `Math.PI` is a fixed real constant. Nothing about the curves' shapes is proved beyond bounds that hold for all trig values.
- Random draws. Each call's `Math.random()` stream is a separate `rand` parameter, numbered from 0 within that call. In the program, one global stream feeds `getPointsForShape`, `getColorsForShape`, the sizes loop and the effect's second pair of calls in turn. The model does not relate these streams, so it does not say how the two draws at mount differ.
- Canvas rasterisation (`utils/geometry.ts:32-47`) is browser I/O. The sampled image is an input. The text string (`'世界之外'`, or `'Error'` in the default branch) is not modelled, because only the image it produces matters.
- The `default` branch of `getPointsForShape` (`utils/geometry.ts:329`) cannot be reached, because the shape type has exactly six values.
- `THREE.Color.setHSL` and `setHex` are the `toRgb` oracle. `THREE.Vector3` arithmetic is written out on real triples.
- Float32 rounding. All buffers hold reals, and `Float32Array.from` is an exact copy.
- MediaPipe, camera set-up, `requestAnimationFrame`, teardown, `Math.sqrt`, `Date.now` and `console.log` (`components/HandController.tsx:16-68`, `127-136`) are I/O. The two distances and the clock reading are inputs.
- Shaders, uniforms, `BufferAttribute.set` and `needsUpdate`, and React hooks (`components/Particles.tsx:8-53`, `125-131`) are rendering plumbing. The `if (!pointsRef.current) return` guards (`components/Particles.tsx:93`, `104`) are not modelled: the model assumes a mounted points object.
- Particles.ParticleSystem.constructor: the scale starts at 1, which is THREE's default and not written in the code. Running the memo only once is not enforced.
- `components/UI.tsx`, `components/Experience.tsx` and `App.tsx` are UI and scene composition. Of `types.ts`, only `ShapeType` is used.
- The snow generator's point sequence is specified on an index-carrying `Sample` list rendered through `Plot`. This keeps the trig terms out of the layout proofs. It is the same sequence the loops push.
- Several methods split one loop of the source into a helper, each proved against its specification function. They are FillSky, DrawLine, DrawEye, FillAura, DrawPoints, DrawFlake, FillDust, DrawBud, DrawLayer, FillStem, Generate, FillPositions, PickColour, FillSizes and CopyOf. The source writes these loops inline.
