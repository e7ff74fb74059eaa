# Friends calendar and liquid-glass displacement map — a Dafny model

The application lists friends and shows, for each one, their day of life and
their "hectade" (the block of 100 days the day falls in). Its header is drawn
through a "liquid glass" SVG filter, and that filter's displacement map comes
from a small physics module. This project models two parts of that code:

- `GlassPhysics` (`glass_physics.dfy`) models `src/glassPhysics.ts`:
  - the surface, the slope and the displacement magnitude;
  - `generateDisplacementArray`, which samples a 1-D refraction profile along a radius, as a method with a loop;
  - `createDisplacementMap`, which rasterises the profile into a size × size RGBA buffer, as a method with nested loops over an `array<int>`.

  The proofs cover:
  - the profile's length, its zero tail and its maximum;
  - the buffer layout: offsets in range, disjoint, and covering the whole buffer;
  - the encoding of every pixel: neutral outside the circle, constant blue and alpha, and channel bounds inside.
- `FriendsCalendar` (`friends_calendar.dfy`) models `src/App.tsx`:
  - the `Person` record;
  - the day-number and hectade arithmetic;
  - the component state, as the class `App`, with the handlers that add, remove and edit friends.

  Local storage is a field of `App` holding the list that is saved there. The proofs cover the list updates: append, filter by id and map by id. They also cover the day-number arithmetic.

Numbers of the TypeScript code are modelled as `real` (geometry) or `int`
(milliseconds, bytes). What cannot be computed exactly is passed in as a
function value:
- the optics after the slope: the normal's length, `acos`, Snell's law with `asin`, and `tan`;
- `Math.sqrt`;
- `Math.cos`/`Math.sin` of `Math.atan2`.

`HostMath.Valid` states everything the proofs rely on about these host functions:
- the square root is exact and non-negative;
- cosine and sine lie in [-1, 1].

The clock and `Date.now()` ids are parameters.

The code and its comments disagree in two places. The model follows the code:
- `surfaceHeight` (src/glassPhysics.ts:9) is commented as a squircle. Because `**` applies to the result of `Math.pow`, it computes `1 - ((1-x)^4)^0.25 = 1 - |1-x|`, a straight ramp on [0, 1].
- The profile is described as running from the edge (t = 0) to the flat centre (t = 1). `createDisplacementMap` indexes it by distance from the centre (src/glassPhysics.ts:130-133). So the centre pixel reads sample 0 and the rim reads the last sample. `CentrePixelIsNeutral`, `RimReadsFlatSample` and `PastBezelIsNeutral` state this and its effect: the bevel's displacement shows near the centre and the rim stays neutral.

Magnitudes are normalised by the profile's own maximum, `data.maxDisplacement` (src/glassPhysics.ts:135-136).

## Model

| member | source | states |
|---|---|---|
| GlassPhysics.DisplacementData | src/glassPhysics.ts:69-72 | the profile record: the samples and their maximum |
| GlassPhysics.SurfaceHeight | src/glassPhysics.ts:8-10 | the height never exceeds 1 and equals x on [0, 1] (the code's `1 - \|1-x\|`, not a squircle) |
| GlassPhysics.SurfaceHeightIsFourthRootForm | src/glassPhysics.ts:9 | `1 - SurfaceHeight(x)` is the non-negative fourth root of (1-x)^4, which is what the expression computes |
| GlassPhysics.Derivative | src/glassPhysics.ts:13-17 | the central-difference slope with delta 0.001 lies in [-1, 1]; it is exactly 1 left of the crest and -1 right of it |
| GlassPhysics.CalculateDisplacement | src/glassPhysics.ts:31-67 | the displacement is non-negative (the final `Math.abs`); it is 0 at the edge or for zero thickness; on [0, 1] it is \|u · thickness · tan(deviation at the slope)\| |
| GlassPhysics.ProfileEntry | src/glassPhysics.ts:85-95 | sample i is non-negative, is 0 at index 0, and is 0 whenever i/(samples-1) exceeds the bezel width |
| GlassPhysics.SeqMax | src/glassPhysics.ts:101 | the maximum of a non-empty list is at least every element and is one of them |
| GlassPhysics.GenerateDisplacementArray | src/glassPhysics.ts:78-104 | returns exactly `samples` entries, entry i being the sample at t = i/(samples-1); the maximum is that of the entries; the result is a well-formed profile (non-negative entries, maximum attained and bounding all) |
| GlassPhysics.ZeroBezelIsFlat | src/glassPhysics.ts:87-92 | with bezel width 0 every entry after index 0 is 0 |
| GlassPhysics.LastSampleIsFlat | src/glassPhysics.ts:87-92 | with at least two samples and a bezel narrower than 1, the last sample (t = 1) is 0 |
| GlassPhysics.ZeroMaxIffFlat | src/glassPhysics.ts:101-103 | a profile's maximum is 0 exactly when every entry is 0 |
| GlassPhysics.Inside | src/glassPhysics.ts:122-129 | the inside test, stated on squared distances: a positive radius and dx²+dy² <= radius² |
| GlassPhysics.InsideMatchesDistanceTest | src/glassPhysics.ts:122-129 | `sqrt(dx²+dy²) <= radius` holds exactly when `dx²+dy² <= radius²`, so the inside test is the squared-distance test |
| GlassPhysics.SampleIndex | src/glassPhysics.ts:130-134 | `floor(distance/radius·(len-1))` lies in [0, len-1] and is the floor of that product; it is 0 at the centre and len-1 on the rim |
| GlassPhysics.EdgeAlpha | src/glassPhysics.ts:143-145 | `min(1, (radius-distance)/2)` lies in [0, 1]; it is 1 exactly when the pixel is at least 2 px inside the rim, and otherwise alpha·2 is the distance to the rim |
| GlassPhysics.InsideShade | src/glassPhysics.ts:130-149 | for a well-formed profile the red and green values lie in [1, 255]; a zero sample gives the neutral (128, 128) |
| GlassPhysics.PixelShade | src/glassPhysics.ts:122-150 | a pixel outside the circle is (128, 128); a pixel inside, with a well-formed profile, has red and green in [1, 255] |
| GlassPhysics.ToUint8Clamp | src/glassPhysics.ts:152-153 | the byte a `Uint8ClampedArray` stores lies in [0, 255]: 0 for values <= 0 and 255 for values >= 255; in between it is within 0.5 of the value, even on ties, and exact for integers |
| GlassPhysics.PixelColor | src/glassPhysics.ts:126-155 | every stored pixel has byte-ranged red and green, blue 128 and alpha 255; outside the circle red = green = 128; with a well-formed profile red and green are at least 1 |
| GlassPhysics.RowStartGrows | src/glassPhysics.ts:120 | rows are laid out one after another: an earlier row ends before a later row starts |
| GlassPhysics.RowStartMono | src/glassPhysics.ts:120 | row starts never decrease with the row number |
| GlassPhysics.PixelOffset | src/glassPhysics.ts:120 | `(y·size+x)·4` is a multiple of 4 and its four bytes lie inside the size·size·4 buffer |
| GlassPhysics.PixelOffsetsDisjoint | src/glassPhysics.ts:118-120 | two different pixels never write the same byte |
| GlassPhysics.PixelOffsetsCover | src/glassPhysics.ts:115-120 | every byte of the buffer belongs to some pixel in [0, size)² |
| GlassPhysics.HoldsKept | src/glassPhysics.ts:152-155 | a pixel's four bytes survive a write of four bytes at a disjoint offset |
| GlassPhysics.PaintPixel | src/glassPhysics.ts:120-155 | writes the pixel's colour at its offset and leaves every other byte of the buffer unchanged |
| GlassPhysics.PaintStep | src/glassPhysics.ts:118-155 | painting one pixel in row-major order, touching no other byte, keeps every pixel painted before it and adds that one |
| GlassPhysics.PaintRow | src/glassPhysics.ts:119-156 | the inner loop paints row y completely, after the rows above it, and keeps those rows painted |
| GlassPhysics.CreateDisplacementMap | src/glassPhysics.ts:110-160 | returns a fresh buffer of size·size·4 bytes in which every pixel of [0, size)² holds its colour at its offset |
| GlassPhysics.RimReadsFlatSample | src/glassPhysics.ts:130-134 | the rim of the circle reads the last sample, and (by the zero tail of lines 87-92) in a generated profile with a bezel narrower than 1 that sample is 0 |
| GlassPhysics.PastBezelIsNeutral | src/glassPhysics.ts:130-149 | with a generated profile (zero past the bezel, lines 87-92), every pixel inside the circle whose sample index lies past bezelWidth·(samples-1) gets the neutral (128, 128) |
| GlassPhysics.SqrtOfZero | src/glassPhysics.ts:124 | the host square root of 0 is 0 |
| GlassPhysics.CentrePixelIsNeutral | src/glassPhysics.ts:116-155 | in an even-sized image whose profile starts with 0, the centre pixel is stored as (128, 128, 128, 255) |
| FriendsCalendar.Person | src/App.tsx:21-25 | a friend: id, name and birthday |
| FriendsCalendar.DayNumber | src/App.tsx:27-32 | the day number d is the one whose window [(d-1) days, d days) contains the time since birth |
| FriendsCalendar.DayNumberUnique | src/App.tsx:31 | that window determines the day number uniquely |
| FriendsCalendar.FirstDayIsDayOne | src/App.tsx:31 | every instant in the first 24 hours after birth is day 1 |
| FriendsCalendar.DayNumberAdvancesDaily | src/App.tsx:31 | 86 400 000 ms later the day number is exactly one higher |
| FriendsCalendar.DayNumberMonotone | src/App.tsx:31 | the day number never decreases as time passes |
| FriendsCalendar.Hectade | src/App.tsx:259-260 | the hectade h satisfies 100·h <= day < 100·(h+1) |
| FriendsCalendar.HectadeSteps | src/App.tsx:260 | days 1 to 99 are hectade 0, and 100 days later the hectade is one higher |
| FriendsCalendar.WithoutId | src/App.tsx:114 | the kept friends are exactly those of the list whose id differs, and the list does not grow |
| FriendsCalendar.WithoutIdAppend | src/App.tsx:114 | filtering distributes over concatenation, so relative order is kept |
| FriendsCalendar.WithoutAbsentId | src/App.tsx:114 | removing an id that no friend has changes nothing |
| FriendsCalendar.WithoutIdIdempotent | src/App.tsx:114 | removing the same id twice is the same as removing it once |
| FriendsCalendar.ReplaceById | src/App.tsx:128-132 | the list keeps its length and order; every entry with the id gets the new name and birthday and keeps its id; every other entry is unchanged |
| FriendsCalendar.ReplaceByIdKeepsIds | src/App.tsx:128-132 | an edit never changes the id at any position |
| FriendsCalendar.ReplaceByIdIdempotent | src/App.tsx:128-132 | applying the same edit twice is the same as applying it once |
| FriendsCalendar.App.constructor | src/App.tsx:35-42 | the list starts empty, the text fields empty, both dialogs closed and no friend being edited |
| FriendsCalendar.App.LoadSaved | src/App.tsx:84-90 | on mount the stored list, when there is one, becomes the list on screen, and the two then agree |
| FriendsCalendar.App.SavePeople | src/App.tsx:93-96 | afterwards the list on screen and the stored list both equal the argument |
| FriendsCalendar.App.HandleAddPerson | src/App.tsx:98-111 | with an empty name or birthday nothing changes; otherwise exactly one friend with the given id, name and birthday is appended at the end, the list is saved, the name and birthday fields are cleared, the add dialog closes, and the edit state is untouched |
| FriendsCalendar.App.HandleRemovePerson | src/App.tsx:113-115 | the list becomes `WithoutId` of the old list, and it is saved |
| FriendsCalendar.App.OpenEditDialog | src/App.tsx:117-121 | the friend becomes the one being edited, and its name and birthday are copied into the edit fields |
| FriendsCalendar.App.HandleEditPerson | src/App.tsx:123-135 | with no friend being edited, or an empty name or birthday, nothing changes; otherwise the list becomes `ReplaceById` of the old list and is saved, and editing ends; the add-dialog state is untouched |
| FriendsCalendar.App.SetNewName | src/App.tsx:217 | the add dialog's name field takes the typed value |
| FriendsCalendar.App.SetNewBirthday | src/App.tsx:227 | the add dialog's birthday field takes the typed value |
| FriendsCalendar.App.SetAddDialogOpen | src/App.tsx:172 | the add dialog's open state follows the dialog |
| FriendsCalendar.App.SetEditName | src/App.tsx:317 | the edit dialog's name field takes the typed value |
| FriendsCalendar.App.SetEditBirthday | src/App.tsx:327 | the edit dialog's birthday field takes the typed value |
| FriendsCalendar.App.OnEditDialogOpenChange | src/App.tsx:302-305 | closing the edit dialog ends the edit; opening it changes nothing |
| FriendsCalendar.AddThenRemove | src/App.tsx:98-115 | adding a friend with a fresh id and then removing that id gives back the original list, which is then saved |

## Left out

- The optics after the slope are passed in as one function, `tanDeviation`. This covers the normal's normalisation, `acos`, `snellsLaw` with `asin` and the refractive indices 1.0 and 1.5, and `tan` (src/glassPhysics.ts:19-64). They are transcendental floating-point computations. Only the final `Math.abs` and the factor height · thickness are modelled.
- Floating-point rounding is not modelled anywhere. The model computes in exact reals: t = i/(samples-1), the normalised distance, the magnitudes and the day-number quotient.
- `Math.sqrt`, `Math.atan2`, `Math.cos` and `Math.sin` are host functions. They are passed in. The model assumes only what `HostMath.Valid` states about them.
- GlassPhysics.GenerateDisplacementArray:
  - It requires `samples >= 1`. With 0 samples, `Math.max()` of the empty list is -Infinity.
  - It requires a non-zero bezel width when there are several samples. Otherwise sample 0 computes 0/0.
  - With a single sample, t is 0/0 = NaN, so the comparison is false and the sample is 0. The model keeps that branch.
- GlassPhysics.CreateDisplacementMap requires `size >= 1`. With size 0, `new ImageData(0, 0)` throws an `IndexSizeError`; the model does not represent that exception.
- GlassPhysics.CreateDisplacementMap:
  - It requires a non-zero radius and a non-zero `maxDisplacement`. The code would divide by zero there and store NaN, which a `Uint8ClampedArray` turns into 0.
  - The `ImageData` is modelled as its `data` bytes only. Width and height are not modelled separately.
- `imageDataToDataURL` (src/glassPhysics.ts:163-170) is not modelled. It is DOM canvas and PNG encoding.
- `createRoundedRectDisplacementMap` is not part of this model. It is used by the header effect at src/App.tsx:65-82, but its source is not among the modelled files. For the same reason, the effect and its `ResizeObserver` (src/App.tsx:54-63) are left out.
- Local storage and JSON:
  - `localStorage` is the field `App.persisted`, holding the list itself.
  - `JSON.stringify`/`JSON.parse` and malformed stored text are not modelled.
- FriendsCalendar.App.SavePeople always ends with the stored list equal to the list on screen. In the code `localStorage.setItem` can throw (for example a `QuotaExceededError`) after `setPeople` has run. The list on screen is then left unsaved, and `handleAddPerson` skips its resets. The model does not capture that failure.
- FriendsCalendar.DayNumber takes millisecond timestamps. Parsing "YYYY-MM-DD" with `new Date(...)` and reading the clock are left out.
- FriendsCalendar.App.HandleAddPerson takes the new id as a parameter in place of `Date.now().toString()`. The model therefore does not capture that two friends added within the same millisecond would share an id.
- The rendering and the list display are not modelled: JSX, dialogs, `toLocaleString`, and the other components (`GlassApp`, `ControlPanel`, `SliderControl`, `ImageUrlInput`, `Background`, `GlassCircle`, `ComputingIndicator`, `AppSvgFilters`). Only the state updates their events trigger are modelled. `GlassApp`'s debounce and `requestAnimationFrame` scheduling are left out too.
