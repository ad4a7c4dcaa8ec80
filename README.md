# 3D container designer — layout store model

This project models the logic of a browser tool for laying out the interior of a shipping
container. A zustand store holds the design:

- the container's length, width, height and material;
- the ordered list of design elements (doors, windows, furniture, …);
- the selected element;
- the grid and rotation snapping preferences.

Each mutator replaces only the store keys it returns (the container, the element list, the
selection or one preference) and leaves the other keys as they were. Its read-only rules decide:

- whether an element may be placed at a position: inside the walls less a 0.05 margin, and
  overlapping no other element;
- whether an element may take a rotation: every angle in [-2π, 2π]; doors turn about Y
  only, between 0 and π/2, and need wall clearance when open;
- how positions and angles snap to a grid;
- which alignment guides a dragged element sees.

Around the store sit two UI handlers:

- the drag handler of a rendered element, which snaps the drop point, validates it, and
  either commits it or puts the 3D object back;
- the control panel, which adds elements with per-type defaults, toggles doors, applies
  rotation presets and edits the container's dimensions.

Modules, in dependency order:

- `Geometry` (geometry.dfy): 3-vectors, the container, elements, the partial objects that
  `updateElement` and `setContainerDimensions` spread over them, and `Math.round`. π is a
  symbolic constant known only to lie in (3.14159, 3.14160).
- `ElementList` (element_list.dfy): `find`, and the `filter` and `map` the element mutators
  rebuild the list with.
- `Validator` (validator.dfy): `validatePosition` and `validateRotation` as predicates, plus
  the legal-layout invariant.
- `Snapping` (snapping.dfy): `snapPosition` and `snapRotation`.
- `Alignment` (alignment.dfy): `getAlignmentGuides`.
- `DesignStore` (store.dfy): the store as a class with one field per piece of state. Its
  mutators are methods that state the whole new state. The read-only rules are loop methods
  proved equal to the predicates and functions above.
- `DraggableElement` (drag.dfy): `handleDragEnd` and `handleDragStart`, with the 3D object as
  a class whose position is reset in place.
- `ControlPanel` (control_panel.dfy): `handleAddElement`, the door toggle, the rotation
  presets and the three dimension fields.

Points of the code worth knowing, all modelled as written:

- The ceiling bound is `height/2 - 0.05`, not `height - 0.05` (store.js:49, 57). As a
  consequence `Validator.TallElementNeverPlaced` shows that an element taller than
  `height/2 - 0.1` has no admitted position at all. The half-height ceiling may be deliberate,
  so it is not reported as a defect.
- On a 0.1 grid, `[1.234, 0.876, -0.551]` snaps to `[1.2, 0.9, -0.6]`, because `Math.round(-5.51)`
  is -6; a value of -0.5 for the last component would be wrong under any rounding to nearest.
  `Snapping.SnapExample` proves -0.6.
- Ties round toward +∞, as `Math.round` does: -0.25 snaps to -0.2
  (`Snapping.NegativeHalfRoundsUp`).
- The door clearance test uses the door's current stored position, not the position it is
  being dragged to.

## Model

| member | source | states |
|---|---|---|
| `Geometry.Round` | client/src/store.js:118 | `Math.round`: the result is within half of the input, ties go up |
| `Geometry.RoundOfInteger` | client/src/store.js:118 | integers round to themselves |
| `Geometry.Merge` | client/src/store.js:27 | `{ ...el, ...updates }`: every key the update holds replaces the element's, the others are kept |
| `Geometry.MergeContainer` | client/src/store.js:14 | `{ ...state.container, ...dimensions }`: given dimensions replace the container's, the others are kept |
| `Geometry.MergeCombine` | client/src/store.js:26-28 | spreading two updates in turn equals spreading their combination |
| `Geometry.MergeIdempotent` | client/src/store.js:26-28 | spreading the same update twice is spreading it once |
| `ElementList.FindIndex` | client/src/store.js:43 | index of the first element with the id; none exactly when no element has it |
| `ElementList.Lookup` | client/src/store.js:43 | `find` by id: absent exactly when no element has the id, else the first element carrying it |
| `ElementList.FindIndexByIds` | client/src/store.js:43 | which element `find` picks depends on the ids alone |
| `ElementList.RemoveId` | client/src/store.js:22-24 | `filter`: keeps exactly the elements with another id, never grows |
| `ElementList.RemoveIdConcat` | client/src/store.js:22-24 | filtering distributes over concatenation, so survivors keep their order |
| `ElementList.RemoveIdAbsent` | client/src/store.js:22-24 | removing an id nobody carries changes nothing |
| `ElementList.RemoveAfterAppend` | client/src/store.js:18-24 | removing a freshly added id undoes the append |
| `ElementList.UpdateAll` | client/src/store.js:26-28 | length kept; matching elements get the update spread over them, others unchanged |
| `ElementList.MoveAll` | client/src/store.js:32-34 | length kept; only the position of matching elements changes, to the given one |
| `ElementList.MoveIsPositionUpdate` | client/src/store.js:26-34 | moving is updating with a position-only patch |
| `ElementList.UpdateAbsent` | client/src/store.js:26-34 | updating or moving an id nobody carries changes nothing |
| `Validator.InBounds` | client/src/store.js:46-62 | the six margin tests: the box lies within the walls less 0.05, floor at 0.05, ceiling at H/2-0.05 |
| `Validator.Overlaps` | client/src/store.js:64-71 | two boxes overlap when their centres are closer than the half-sum of their sizes on all three axes |
| `Validator.PositionValid` | client/src/store.js:41-77 | `validatePosition`: the id's first element exists, its box at the position is in bounds and overlaps no element with another id |
| `Validator.UnknownIdRejected` | client/src/store.js:41-44 | an id not in the list is never admitted |
| `Validator.AcceptedWithinBounds` | client/src/store.js:46-62 | an admitted box lies within [-L/2+0.05, L/2-0.05], [0.05, H/2-0.05], [-W/2+0.05, W/2-0.05] |
| `Validator.AcceptedSeparated` | client/src/store.js:64-74 | at an admitted position every element with another id is separated on some axis |
| `Validator.TouchingIsNotOverlap` | client/src/store.js:67-71 | boxes whose centre distance equals the half-sum on an axis do not overlap |
| `Validator.OverlapsSymmetric` | client/src/store.js:67-71 | the overlap test does not depend on which box is moved |
| `Validator.PositionValidFootprints` | client/src/store.js:41-77 | validation reads only ids, sizes and the other elements' positions |
| `Validator.MovePreservesLegalLayout` | client/src/store.js:41-77 | with unique ids, moving to an admitted position keeps every box inside and disjoint |
| `Validator.TallElementNeverPlaced` | client/src/store.js:49-57 | with the half-height ceiling, an element taller than H/2-0.1 is never admitted |
| `Validator.PastTheWallRejected` | client/src/store.js:54-55 | a 0.9-wide element at x = 2.9 in the 6-long container is refused |
| `Validator.DoorClearance` | client/src/store.js:95-106 | the door's stored position, widened by half its width, stays 0.05 inside both X walls |
| `Validator.DoorRotationAllowed` | client/src/store.js:89-107 | X and Z are 0, Y in [0, π/2], and a Y within 0.1 of π/2 needs clearance |
| `Validator.RotationValid` | client/src/store.js:79-111 | `validateRotation`: the id exists, all angles in [-2π, 2π], and door rules for doors |
| `Validator.NonDoorRangeOnly` | client/src/store.js:84-110 | a non-door rotation is admitted exactly when all three angles are in [-2π, 2π] |
| `Validator.AcceptedRotation` | client/src/store.js:84-93 | admitted angles are in range; an admitted door rotation is about Y only, in [0, π/2] |
| `Validator.OpenDoorNeedsClearance` | client/src/store.js:95-106 | a door within 0.1 of a quarter turn is admitted exactly when its current position clears both X walls |
| `Validator.ClosedRotationAlwaysValid` | client/src/store.js:79-110 | [0, 0, 0] is admitted for every existing element |
| `Snapping.SnapCoord` | client/src/store.js:118 | `Math.round(x / pitch) * pitch` for one coordinate |
| `Snapping.Snap` | client/src/store.js:113-122 | the identity when the flag is off, else each component snapped to the pitch |
| `Snapping.SnapCoordOnGrid` | client/src/store.js:118 | a snapped coordinate is a multiple of the pitch at most half a pitch away |
| `Snapping.SnapCoordFixedPoints` | client/src/store.js:118 | snapping leaves a coordinate in place exactly when it is on the grid |
| `Snapping.SnapCoordIdempotent` | client/src/store.js:118 | snapping a coordinate twice equals snapping it once |
| `Snapping.SnapMeaning` | client/src/store.js:113-122 | off: identity; on: every component on the grid, within half a pitch |
| `Snapping.SnapIdempotent` | client/src/store.js:113-122 | snapping a vector is idempotent |
| `Snapping.SnapExample` | client/src/store.js:117-121 | [1.234, 0.876, -0.551] snaps to [1.2, 0.9, -0.6] on a 0.1 grid |
| `Snapping.NegativeHalfRoundsUp` | client/src/store.js:118 | -0.25 snaps to -0.2: ties go toward +∞ |
| `Alignment.GuideIfNear` | client/src/store.js:134-136 | one conditional push: the guide is emitted exactly when the coordinate is within 0.1 |
| `Alignment.WallLines` | client/src/store.js:132-145 | the four wall pushes yield wall guides only |
| `Alignment.ElementGuides` | client/src/store.js:150-166 | the per-element pushes yield element guides only |
| `Alignment.WallGuides` | client/src/store.js:132-148 | the four wall pushes followed by the floor push, in source order |
| `Alignment.GuidesTo` | client/src/store.js:154-165 | one other element's X, Y, Z pushes, each when within 0.1 of its coordinate |
| `Alignment.AlignmentGuides` | client/src/store.js:124-169 | `getAlignmentGuides`: none for an unknown id, else wall and floor guides then element guides |
| `Alignment.UnknownIdNoGuides` | client/src/store.js:126-127 | an unknown id gets no guides |
| `Alignment.GuidesAreNear` | client/src/store.js:124-169 | every guide is within 0.1 of the dragged coordinate on its axis |
| `Alignment.WallGuideIff` | client/src/store.js:132-145 | a wall guide appears exactly at a wall target within 0.1 of the coordinate |
| `Alignment.FloorGuideIff` | client/src/store.js:146-148 | a floor guide appears exactly on Y at half the element's height, when within 0.1 |
| `Alignment.ElementGuideSource` | client/src/store.js:151-165 | every element guide comes from an element with another id at that coordinate |
| `Alignment.ElementGuideFromSource` | client/src/store.js:151-165 | every element with another id within 0.1 on an axis contributes its guide |
| `Alignment.ElementGuideIff` | client/src/store.js:150-166 | an element guide appears exactly when some element with another id lines up |
| `Alignment.ElementGuidesConcat` | client/src/store.js:151-166 | guides of earlier elements come before those of later ones |
| `Alignment.ElementGuidesIgnoreSelf` | client/src/store.js:151-152 | the dragged element never contributes a guide |
| `Alignment.GuidesOrdered` | client/src/store.js:129-168 | guides come out walls first, then the floor, then elements |
| `DesignStore.Instantiate` | client/src/store.js:18-19 | the appended object: the draft's keys plus the id, rotation [0, 0, 0] and isOpen false |
| `DesignStore.PushIfNear` | client/src/store.js:134-136 | one conditional `guides.push`: the guide is appended exactly when within 0.1 |
| `DesignStore.PushWallGuides` | client/src/store.js:132-148 | the five wall and floor pushes yield exactly `WallGuides` |
| `DesignStore.PushGuidesTo` | client/src/store.js:154-165 | one loop iteration's three pushes append exactly `GuidesTo` for that element |
| `DesignStore.Store.constructor` | client/src/store.js:4-12 | initial container 6 x 2.5 x 3 metal, no elements, no selection, grid snapping on at 0.1, rotation snapping off at π/2 |
| `DesignStore.Store.SetContainerDimensions` | client/src/store.js:14 | given keys replace the container's, the others and all other state stay |
| `DesignStore.Store.SetContainerMaterial` | client/src/store.js:16 | only the container's material changes |
| `DesignStore.Store.AddElement` | client/src/store.js:18-20 | exactly one element appended with the id, the draft's fields, rotation [0,0,0], isOpen false; prefix unchanged |
| `DesignStore.Store.RemoveElement` | client/src/store.js:22-24 | elements become the filtered list; nothing else changes |
| `DesignStore.Store.UpdateElement` | client/src/store.js:26-28 | elements become the mapped list; nothing else changes |
| `DesignStore.Store.SelectElement` | client/src/store.js:30 | only the selection changes |
| `DesignStore.Store.MoveElement` | client/src/store.js:32-34 | elements become the position-mapped list; nothing else changes |
| `DesignStore.Store.ExportDesign` | client/src/store.js:36-39 | the snapshot holds the container and the elements |
| `DesignStore.Store.ValidatePosition` | client/src/store.js:41-77 | the early-return loop computes exactly the placement predicate |
| `DesignStore.Store.ValidateRotation` | client/src/store.js:79-111 | the range loop and door checks compute exactly the rotation predicate |
| `DesignStore.Store.SnapPosition` | client/src/store.js:113-122 | identity when off; on the grid within half a step when on |
| `DesignStore.Store.GetAlignmentGuides` | client/src/store.js:124-169 | the push loop yields exactly the guide sequence `AlignmentGuides` defines |
| `DesignStore.Store.ToggleSnapToGrid` | client/src/store.js:171 | the flag is negated and nothing else changes, so two toggles restore it |
| `DesignStore.Store.SetGridSize` | client/src/store.js:173 | only the grid size changes |
| `DesignStore.Store.SnapRotation` | client/src/store.js:175-184 | identity when off; on the angle grid within half a step when on |
| `DesignStore.Store.ToggleSnapToRotation` | client/src/store.js:186 | the flag is negated and nothing else changes |
| `DesignStore.Store.SetRotationSnapAngle` | client/src/store.js:188 | only the snap angle changes |
| `DraggableElement.HandleDragEnd` | client/src/DraggableElement.js:67-86 | snapped drop validated; committed only if it differs, else the object is reset; dragging always cleared |
| `DraggableElement.HandleDragStart` | client/src/DraggableElement.js:88 | the element's dragging flag is set |
| `DraggableElement.DraggingOnly` | client/src/DraggableElement.js:85-88 | a dragging update changes no other field of any element |
| `DraggableElement.CommitIsOneUpdate` | client/src/DraggableElement.js:79-85 | the move and then the dragging update equal one update with the combined patch |
| `DraggableElement.CommittedDropStaysValid` | client/src/DraggableElement.js:72-85 | after a commit the element holds the dropped position, is not dragging, and that position still validates |
| `DraggableElement.RejectedDropKeepsLayout` | client/src/DraggableElement.js:81-85 | a rejected drop leaves every element as it was apart from dragging |
| `DraggableElement.DropPreservesLegalLayout` | client/src/DraggableElement.js:67-86 | with unique ids, no drag end turns a legal layout illegal |
| `ControlPanel.DefaultsFor` | client/src/ControlPanel.js:17-77 | the size, position, material and color switch for each element type, with the default case |
| `ControlPanel.DraftFor` | client/src/ControlPanel.js:78-84 | the object passed to `addElement` has the type and its table defaults |
| `ControlPanel.DoorDefaults` | client/src/ControlPanel.js:18-23 | door 0.9 x 2 x 0.1 wood, centred on the +X margin line, on the floor, 0.45 past the bound |
| `ControlPanel.WindowDefaults` | client/src/ControlPanel.js:24-29 | window 1 x 1 x 0.1 glass at [0, 1.5, W/2-0.05] |
| `ControlPanel.ContainerSpanningDefaults` | client/src/ControlPanel.js:30-41 | partition spans floor to H and the full width; shelf spans L x W at height 1 |
| `ControlPanel.UnknownKindDefaults` | client/src/ControlPanel.js:72-77 | other types get a unit cube at the origin in the first material and color |
| `ControlPanel.FloorStandingDefaults` | client/src/ControlPanel.js:18-65 | doors, partitions, tables, chairs, beds and toilets start with their bottom at y = 0 |
| `ControlPanel.DefaultPlacementOutOfBounds` | client/src/ControlPanel.js:15-77 | no default box is inside the validation bounds, bar the fan's in a container at least 5.2 high |
| `ControlPanel.FanPlacementInBounds` | client/src/ControlPanel.js:66-71 | the fan's default box is inside the bounds in such a container |
| `ControlPanel.HandleAddElement` | client/src/ControlPanel.js:15-85 | appends exactly the type's default element, unsnapped and unvalidated |
| `ControlPanel.AddedDefaultNotValidated` | client/src/ControlPanel.js:78-84 | adding a default element (fan aside) makes the layout illegal, and with a fresh id the store would refuse its position |
| `ControlPanel.DoorRotation` | client/src/ControlPanel.js:224 | [0, π/2, 0] when opening, [0, 0, 0] when closing |
| `ControlPanel.DoorTogglePatch` | client/src/ControlPanel.js:222-225 | the update `{ isOpen: !el.isOpen, rotation }` the toggle passes to `updateElement` |
| `ControlPanel.DoorToggleFlips` | client/src/ControlPanel.js:222-225 | the toggle flips isOpen, sets [0, π/2, 0] or [0, 0, 0], and changes nothing else |
| `ControlPanel.DoorToggleTwice` | client/src/ControlPanel.js:222-225 | two toggles restore isOpen and leave the canonical rotation; a canonical door returns unchanged |
| `ControlPanel.DoorToggleRotationValidity` | client/src/ControlPanel.js:219-226 | the closed rotation always validates, the open one exactly when the door has clearance |
| `ControlPanel.ToggleDoor` | client/src/ControlPanel.js:219-230 | the selected door gets the toggle patch; otherwise nothing changes |
| `ControlPanel.PresetRotation` | client/src/ControlPanel.js:5-10 | the k-th of the four presets 0, π/2, π, 3π/2 (`ROTATION_PRESETS`) as [0, v, 0], v in [0, 2π) |
| `ControlPanel.ApplyRotationPreset` | client/src/ControlPanel.js:192-198 | the selected element's rotation becomes [0, v, 0]; otherwise nothing changes |
| `ControlPanel.PresetOnlyRotation` | client/src/ControlPanel.js:197 | a preset changes only the rotation, to [0, v, 0] with v one of the four presets |
| `ControlPanel.PresetValidity` | client/src/ControlPanel.js:5-10 | non-doors accept all presets; doors accept 0, π/2 only with clearance, never π or 3π/2 |
| `ControlPanel.EditLength` | client/src/ControlPanel.js:105 | only the length changes; width, height and material are kept |
| `ControlPanel.EditWidth` | client/src/ControlPanel.js:106 | only the width changes |
| `ControlPanel.EditHeight` | client/src/ControlPanel.js:107 | only the height changes |

## Left out

- Rendering and 3D plumbing are not modelled: the viewer, the app shell, the GLTF component
  wrappers, the type-to-model-file table of the drag component and its position/rotation/scale
  effect. They are library calls with no layout logic.
- `JSON.stringify` in `exportDesign` is not modelled: the model returns the snapshot value
  itself. The Blob/URL download and the screenshot helper are I/O.
- `Date.now()` ids: the id is a parameter of `AddElement` and `HandleAddElement`, with no
  freshness assumption. Lemmas that need distinct ids say so.
- IEEE-754 arithmetic is not modelled: coordinates and angles are exact reals, and π is
  symbolic. `parseFloat` and NaN input are not modelled either.
- `DesignStore.Store.SnapPosition`, `DesignStore.Store.SnapRotation` and
  `DraggableElement.HandleDragEnd` require a nonzero grid size or snap angle while snapping is
  on. In the code a zero step divides by zero and yields NaN, which is not modelled.
- The zustand subscription and re-rendering are not modelled. Each mutator is one atomic
  replacement of store fields.
- The edit panel's per-field `updateElement` calls (size, position, rotation, material,
  color) are not modelled as separate handlers. Each is an `UpdateElement` with a one-key
  patch, which `ElementList.UpdateAll` covers.
- The "Remove Selected" button and the element list's select click are not modelled as
  separate handlers. They call `RemoveElement` and `SelectElement` directly.
- JavaScript truthiness of the selected id is not modelled. The code hides the edit panel
  and the remove button when the id is falsy, for example 0; `Date.now()` ids never are.
  In the model a selection is simply present or absent.
- Element keys the core never reads (`modelUrl`, `scale`) are not part of the element
  value.
- Undo/redo history, zone-based placement, save/load and scale-aware validation are not
  modelled, because none of them appears in the code.
