# ICSOT conference page: particle field, abstract search and venue programs

This project models the logic of `script.js`, the one script of the ICSOT 2025 conference
page. The model is in Dafny and its properties are proved.

The script has three parts that behave in ways a contract can state:

- **The particle field.** `ParticleSystem` is the animated background. It seeds 150
  particles from `Math.random`. In each frame it moves every particle by its velocity and
  flips a velocity component when the new position is outside the canvas (the position is
  never clamped). A present mouse pointer then pushes the particle away, and the velocity
  is damped by 0.99. Pairs of particles closer than 150 are joined by lines. The `resize`,
  `mousemove` and `mouseleave` handlers reseed the field or set the pointer.
- **The spreadsheet export.** `loadCSV` cuts the text into lines at `'\n'` and each line
  into fields at `','`. It drops the header line and keeps five trimmed fields per line.
  A field the line lacks is `undefined`.
- **The lookups.** `searchAbstract` trims the typed id, refuses an empty one, and shows
  the first record with that id or a not-found message. `showAuditoriumPrograms` collects
  one venue's sessions across the days of the schedule, or shows a no-programs message when
  there are none. Renderers choose a card class from the session type and a date text from
  the day key.

Modules: `Wrappers` (option and result values), `Text` (`split`, `join`, `trim`), `Csv`,
`Search`, `Schedule` and `Particles`. Every JavaScript number is a Dafny `real`. The
canvas extent is a `nat`, since canvas sizes are whole pixels. The field is a `class`
whose methods change it in place: `particles` is a `seq` field that the methods reassign,
and `mouseX`/`mouseY` are `Option<real>` fields, with `None` standing for `null`.

The parts of the source that are not visible here are passed in as parameters:

- `Math.random()` becomes `draws`, a sequence of 5 × 150 numbers in [0, 1). Particle `i`
  uses draws `5i` to `5i+4` for x, y, vx, vy and size, in that order.
- The host's `Math.sqrt`, `Math.atan2`, `Math.cos` and `Math.sin` become `geometry`. Given
  the offset from a particle to the pointer, it returns the distance and the cosine and
  sine of the angle. The radius test, the force `(radius - distance) / radius` and the
  velocity update are modelled exactly on those values.
- The window size becomes the constructor's and `Resize`'s width and height.

Three behaviours of the code that the model keeps exactly:

- Seeded velocities lie in [-0.25, 0.25) and sizes in [1, 3), both half-open, because
  `Math.random()` never returns 1.
- The constructor runs one animation frame itself (`this.animate()` at script.js:213). So
  the field is one pointer-free step past its seed when the constructor returns.
- A particle is not guaranteed to be back inside one frame after it crosses an edge.
  Positions are never clamped, and the sign flip depends only on where the particle is,
  not on which way it moves. A particle lying within `0.01·vx` of an edge therefore
  crosses it and stays outside. From then on its velocity flips on every frame, inward
  and outward in turn, and each pair of frames leaves it further out.
  `OutRightStaysOut` proves this two-frame cycle, and `EdgeParticleNeverReturns` shows
  a particle on the right edge that never comes back.

## Model

| member | source | states |
|---|---|---|
| `Text.Split` | script.js:39 | `split` yields at least one piece |
| `Text.SplitPiecesFree` | script.js:39 | no piece of a split contains the separator |
| `Text.SplitNoSeparator` | script.js:39 | a text without the separator splits into itself alone |
| `Text.SplitAtSeparator` | script.js:39 | the first piece ends at the first separator and the rest is the split of what follows |
| `Text.JoinSplit` | script.js:39 | joining the pieces of a split with the separator gives back the text |
| `Text.SplitJoin` | script.js:39 | splitting a join of separator-free pieces gives back exactly those pieces |
| `Text.SplitCount` | script.js:39 | a text with n separators splits into n + 1 pieces |
| `Text.TrimStartSuffix` | script.js:41-45 | trimming the start keeps a suffix of the input, everything removed is whitespace, and the result does not start with whitespace |
| `Text.TrimEndPrefix` | script.js:41-45 | trimming the end keeps a prefix of the input, everything removed is whitespace, and the result does not end with whitespace |
| `Text.Trim` | script.js:41-45 | `.trim()` is `TrimStart` then `TrimEnd`; what that means is stated by `TrimIsSlice`, `TrimEmpty` and `TrimIdempotent` below |
| `Text.TrimIsSlice` | script.js:87 | `trim` keeps a middle slice of the text with only whitespace cut on either side, and the slice neither starts nor ends with whitespace |
| `Text.TrimEmpty` | script.js:96 | the trimmed input is empty exactly when the text is all whitespace |
| `Text.TrimIdempotent` | script.js:87 | trimming twice is trimming once |
| `Csv.ParseCsv` | script.js:39-46 | one record per line break (every line after the header), and every record has an id |
| `Csv.ParseRow` | script.js:40-46 | one row becomes a record whose five fields are the trimmed cells 0 to 4 of its comma split; `RowFieldPresence` states when each field is present and what it holds |
| `Csv.Cell` | script.js:41-45 | `row[f]?.trim()`: the trimmed cell, or absent past the end of the row; `RowFieldPresence` ties absence to the number of commas |
| `Csv.ParseCsvLines` | script.js:39-46 | for a text made of lines, there is one record per line after the header and record k is the parse of line k + 1 alone |
| `Csv.RowFieldPresence` | script.js:41-45 | field f is absent exactly when the line has fewer than f commas, and otherwise it is the trimmed f-th piece |
| `Csv.NoLineBreakNoRecords` | script.js:39-40 | an empty export or a header alone yields no records |
| `Search.FindById` | script.js:102 | the index of the first record with that id, or none exactly when no record has it |
| `Search.SearchAbstract` | script.js:86-133 | empty trimmed input gives the enter-an-id error; otherwise the first record whose id equals the trimmed input; otherwise the not-found error carrying that input |
| `Search.SearchIgnoresPadding` | script.js:87 | whitespace around the typed id does not change the outcome |
| `Search.SearchBeforeLoad` | script.js:32 | before the export is loaded, every non-empty search is not-found |
| `Search.Message` | script.js:96-131 | the text of each error: the enter-an-id prompt, or the not-found message followed by the trimmed id |
| `Search.MessageDistinct` | script.js:96-131 | two errors show the same text exactly when they are the same error, so the not-found text identifies the id |
| `Schedule.CardClass` | script.js:66-68 | the keynote and invited classes exactly for those types; the plain class for "break", for other types and for an absent type |
| `Schedule.DateText` | script.js:173 | "December 12, 2025" exactly for the key "Dec 12"; every other key reads as December 13 |
| `Schedule.ScheduleDates` | script.js:4-30 | the schedule has two days, and each gets its own date text |
| `Schedule.ScheduleShape` | script.js:4-30 | the `scheduleData` constant holds two days of three venues each, with 1, 2, 1 and 2, 1, 2 sessions |
| `Schedule.OrNull` | script.js:155-156 | the `or null` default keeps a non-empty string and turns an absent or empty one into null |
| `Schedule.VenueSessionsFirst` | script.js:149-150 | the venue lookup finds the first venue with that key, and nothing exactly when the day has none |
| `Schedule.VenueSessions` | script.js:149-150 | `venues[name]`: the sessions of the day's venue with that key; `VenueSessionsFirst` states which venue is found and when none is |
| `Schedule.ToProgram` | script.js:151-157 | the pushed record carries the day, the session's time and title, and its id and type through the `or null` default of `OrNull` |
| `Schedule.Tagged` | script.js:150-158 | one program per session, in listing order, tagged with the day |
| `Schedule.PushSessions` | script.js:150-158 | the inner `forEach` appends exactly the day's tagged sessions |
| `Schedule.CollectPrograms` | script.js:145-160 | the loop over days collects exactly the venue's programs, by day and then by session order |
| `Schedule.VenuePrograms` | script.js:147-160 | the day-ordered concatenation of each day's tagged sessions; `VenueProgramsMembership` and `VenueProgramsEmpty` state what it contains |
| `Schedule.DayContributes` | script.js:148-160 | every program a day contributes is collected |
| `Schedule.CollectedFromSomeDay` | script.js:148-160 | every collected program comes from one of the days |
| `Schedule.VenueProgramsMembership` | script.js:148-160 | a program is collected exactly when some day contributes it |
| `Schedule.VenueProgramsEmpty` | script.js:162-167 | the collection is empty exactly when the venue has no session on any day |
| `Schedule.ShowAuditoriumPrograms` | script.js:136-167 | the error case is exactly that the venue has no session on any day; otherwise the non-empty collection |
| `Schedule.ProgramsMessage` | script.js:163 | the not-found text for a venue: the fixed prefix followed by the venue name |
| `Schedule.ProgramsMessageNamesVenue` | script.js:163 | two not-found texts are equal exactly when they are for the same venue |
| `Particles.Seeded` | script.js:227-238 | reseeding yields exactly `particleCount` particles, built from the draws and the extent alone |
| `Particles.NewParticle` | script.js:230-236 | particle i takes draws 5i to 5i+4 for x, y, vx, vy and size; `NewParticleInRange` states the resulting ranges |
| `Particles.NewParticleInRange` | script.js:230-236 | a particle built from five draws in [0, 1) has x in [0, width), y in [0, height), vx and vy in [-0.25, 0.25) and size in [1, 3) |
| `Particles.SeededInRange` | script.js:230-236 | every seeded particle has x in [0, width), y in [0, height), vx and vy in [-0.25, 0.25) and size in [1, 3) |
| `Particles.Pointer` | script.js:259 | the repulsion branch is open exactly when both mouse coordinates are non-null |
| `Particles.Integrate` | script.js:251-252 | moving a particle changes only its position: velocity and size are kept |
| `Particles.Bounce` | script.js:254-256 | the bounce keeps position, size and speed; a component keeps its sign while its coordinate is inside the extent |
| `Particles.Repel` | script.js:258-270 | the repulsion changes only the velocity, and nothing at all when the pointer is absent |
| `Particles.Damp` | script.js:272-274 | damping keeps position and size and scales each speed component by exactly 0.99 |
| `Particles.Step` | script.js:250-275 | one particle's update never changes its size, and with the pointer absent it is the pointer-free `Drift` |
| `Particles.StepAll` | script.js:249-276 | the frame keeps the number of particles; `AbsentPointerIsDrift` and `UpdateParticles` state its content |
| `Particles.DriftExact` | script.js:251-256 | with no pointer: x' = x + vx, unclamped; vx' = 0.99·(−vx) when x' is outside [0, width], else 0.99·vx; the same for y; the size is kept |
| `Particles.AbsentPointerIsDrift` | script.js:259-270 | with the pointer absent, the frame is the same whatever the host geometry returns |
| `Particles.DistantPointerIsDrift` | script.js:262-264 | a pointer at distance ≥ radius leaves the particle as if absent |
| `Particles.ForceShape` | script.js:265 | the force lies in (0, 1] inside the radius, falls strictly with distance, and is 1 at distance 0 and 0 at the radius |
| `Particles.Force` | script.js:265 | `(radius - distance) / radius`; `ForceShape` states its range and that it falls with distance |
| `Particles.RightEdgeBounce` | script.js:251-256 | x = 799, vx = 2, width 800 gives x' = 801 and vx' = −1.98 (flip first, then damping) |
| `Particles.DriftSpeed` | script.js:273-274 | one pointer-free frame scales each speed component by exactly 0.99, bounce or not |
| `Particles.FramesSpeed` | script.js:250-275 | after k pointer-free frames each speed component is 0.99^k of the initial one |
| `Particles.DampingBound` | script.js:273-274 | 0.99^k is positive and at most 1/(1 + k/100), so speeds die out |
| `Particles.Frames` | script.js:315 | k pointer-free repetitions of `animate` keep the number of particles; `FramesSpeed`, `RestingFieldStays` and `FramesPointwise` state what they do to each particle |
| `Particles.RestingFieldStays` | script.js:250-275 | with no pointer, particles at rest inside the extent stay exactly put through any number of frames |
| `Particles.ThreeRestingParticles` | script.js:250-275 | the three-particle 800×600 field at rest is unchanged after five frames |
| `Particles.FramesPointwise` | script.js:250 | frame k of the field is frame k of each particle on its own |
| `Particles.OutRightStaysOut` | script.js:251-256 | a particle beyond the right edge that heads outwards stays beyond it in every later frame |
| `Particles.EdgeParticleNeverReturns` | script.js:251-256 | a particle on the right edge with vx = 1 is outside in every frame from the first on |
| `Particles.ThresholdOnSquares` | script.js:283-285 | for the non-negative root d of the squared distance, d < 150 exactly when the squared distance is < 150² |
| `Particles.Connected` | script.js:283-285 | a pair is joined when its squared distance is below 150²; `ThresholdOnSquares` shows this equals the source's distance test |
| `Particles.OpacityRange` | script.js:286 | the opacity of a drawn line is in (0, 0.3]: 0.3 at distance 0, 0.1 at distance 100 |
| `Particles.Opacity` | script.js:286 | `(1 - distance / 150) · 0.3`; `OpacityRange` states its range and two values |
| `Particles.ConnectionExamples` | script.js:285 | particles 100 apart are connected; particles 200 apart are not |
| `Particles.ParticleSystem.constructor` | script.js:204-220 | the extent is the window's, the pointer is null, and the field is one pointer-free frame past a fresh seed |
| `Particles.ParticleSystem.CreateParticles` | script.js:227-238 | the field becomes exactly the seed from the draws and the extent; nothing else changes |
| `Particles.ParticleSystem.Resize` | script.js:319-322 | the extent becomes the new one and the field is reseeded for it |
| `Particles.ParticleSystem.UpdateParticles` | script.js:249-276 | each particle takes exactly one step in place: integrate, bounce, repel if the pointer is present, damp; the count is kept |
| `Particles.ParticleSystem.ConnectFrom` | script.js:280-294 | the inner loop adds exactly the connected pairs (i, j > i), in increasing j, after the earlier lines |
| `Particles.ParticleSystem.DrawConnections` | script.js:278-296 | the lines are exactly the pairs i < j closer than 150, each once, in loop order |
| `Particles.ParticleSystem.Animate` | script.js:298-316 | one frame: the field steps, then the lines are those of the stepped field |
| `Particles.ParticleSystem.MouseMove` | script.js:324-327 | the pointer is at the event coordinates |
| `Particles.ParticleSystem.MouseLeave` | script.js:329-332 | both coordinates are null, so the repulsion branch is closed |

## Left out

- Canvas drawing is not modelled: `arc`, `fill`, `stroke`, the radial gradient, `clearRect` and the stroke colour (script.js:240-247, 287-292, 299-309). These are calls into the host's drawing API.
- `requestAnimationFrame` rescheduling is not modelled (script.js:315). It is host scheduling; repeated frames appear only as the `Frames` function.
- `fetch`, `async`/`await` and the error log of `loadCSV` are not modelled (script.js:35-38, 47-49). They are network I/O; the model starts from the text.
- The HTML built by `renderSchedule`, `searchAbstract` and `showAuditoriumPrograms`, and their `innerHTML` and `style.display` updates, are not modelled (script.js:53-83, 105-128, 170-199). They are DOM markup; only the data decisions behind them are kept.
- `ScrollReveal`, `SmoothScroll`, `NavigationScroll`, the Enter-key handler and `window.onload` are not modelled (script.js:337-439). They are DOM, observer and timer glue.
- Registering the event listeners is not modelled (script.js:318-333). Each handler is a method that a caller invokes.
- `Math.random`, `Math.sqrt`, `Math.atan2`, `Math.cos` and `Math.sin` are parameters (`draws`, `geometry`). Their values are not computed.
- Floating point is not modelled: numbers are exact reals, so rounding in the products and the sums does not appear. Double-precision `-0`, `NaN` and infinities do not occur.
- `Particles.ParticleSystem.DrawConnections`: does not return each line's opacity. That value needs `Math.sqrt` of the squared distance. `Opacity` and `OpacityRange` give it for a known distance, and `ThresholdOnSquares` shows that the test on squares matches the source's test on distances.
- `Schedule.VenueSessions`: models `venues[name]` as a lookup among the day's own keys. A name that JavaScript finds on the object prototype, such as `"toString"`, is not covered: in the source it reaches `forEach` on a function and throws.
- `Search.SearchAbstract`: the records are a parameter, so the moment at which `csvData` is replaced is not modelled. Until the export loads, the parameter is the initial empty list.
