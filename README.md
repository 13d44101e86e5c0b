# Dice roller: die model and renderer bookkeeping

A Dafny model of the logic under a small GTK/glium dice-roller. The
application draws spinning polyhedral dice in a GL area. Beneath the
toolkit and OpenGL glue it has two parts:

- **The die** (`src/die.rs`). There are six kinds with 4, 6, 8, 10, 12 and
  20 faces. A `Die` has a fixed `kind`, a value `val` and a roll time
  `time`. Creating a die and rolling it both draw `val` from `1..=faces`
  and stamp `time` with the current instant.
- **The renderer's bookkeeping** (`src/dice_area.rs`). The widget holds an
  optional `Renderer` while it is realized. The renderer owns the collection
  of dice, a counter `prev_size` and six per-kind instance buffers. The
  `add_*` buttons push a die. `roll` rolls every die in place. Each frame
  runs a refresh step, which rebuilds one instance buffer only when the
  collection has just reached exactly one die. It then issues one guarded
  draw call per kind. The six static index tables are uploaded as triangle
  lists without any check that they fit their vertex lists.

Module layout:

| file | module | models |
|---|---|---|
| `die.dfy` | `Dice` | `DieKind`, face counts, the clock, `generate_roll`, class `Die` with `new` and `roll` |
| `meshes.dfy` | `Meshes` | the six index tables, the vertex-list lengths, the triangle-list check |
| `scenes.dfy` | `Scenes` | the renderer's bookkeeping as a value: the kinds of the dice, `prev_size`, the six buffers; refresh, draw guard, traces of operations |
| `dice_area.dfy` | `Area` | class `Renderer` (`new`, the refresh and draw steps of `draw`) and class `DiceArea` (realize, unrealize, render, `add_*`, `roll`) |

The classes are proved against the functions of `Scenes`. For example,
`Renderer.Draw` ensures `State() == Refreshed(old(State()))`. The lemmas in
`Scenes` then state what holds after any sequence of adds, rolls and
frames. From construction on, `prev_size` is 0 or 1. Every buffer holds at
most one instance, and at most one buffer is non-empty. Only the first die
ever placed gets an instance. If two dice are placed before the first frame,
no buffer is ever rebuilt.

The model adds a check of its own on this static data: a triangle-list
check of each index table against the length of its vertex list. It finds a
real defect: the twelve-sided table uses vertex index 20, but its vertex
list has only 20 entries (0 to 19). The
model proves that the first offending entry is the 30th and that the
offending positions are exactly 29, 53, 54, 57 and 60. The other five tables
pass. Which vertex the index 20 was meant to name cannot be recovered from
the code, so the model records the defect and does not repair the table.

Four behaviours of the code are worth knowing, and the model states each
as the code has it:
- The draw guard is written `!len > 0`, and `!` on a `usize` is the bitwise
  complement. So every kind gets a draw call, even with no die placed (see
  Findings).
- `Instant` is monotonic: it never goes back but may repeat a reading. So
  roll times only never decrease.
- Buffers are rebuilt only when the size of the collection becomes exactly
  one.
- The ten-sided die's vertex list and index table are a tetrahedron
  placeholder (src/dice_area.rs:167 and 379). Its table equals the
  four-sided one.

## Model

| member | source | states |
|---|---|---|
| `Dice.Faces` | src/die.rs:36-43 | each kind's upper roll bound is one of 4, 6, 8, 10, 12, 20 |
| `Dice.GenerateRoll` | src/die.rs:33-44 | the drawn value lies in the inclusive range from 1 to the kind's face count |
| `Dice.Clock.Now` | src/die.rs:25-29 | `Instant::now()`: each reading is at least the previous one |
| `Dice.Die.constructor` | src/die.rs:23-26 | the new die has the requested kind, a value in its range and a present time equal to the current clock reading |
| `Dice.Die.Roll` | src/die.rs:28-31 | afterwards the value is in the kind's range and the time is the current reading; only `time`, `val` and the clock may change, and `kind` is constant |
| `Meshes.VertexCount` | src/dice_area.rs:73-331 | the length of each kind's vertex list (4, 8, 6, 4, 20, 12). Each list but the ten-sided placeholder has the vertex count of its solid by Euler's formula |
| `Meshes.Indices` | src/dice_area.rs:334-482 | each kind's index table, transcribed entry by entry. It holds whole triangles. Each table but the ten-sided one fans every face into sides minus 2 triangles. The ten-sided table equals the four-sided one |
| `Meshes.FirstOutOfRange` | src/dice_area.rs:334-482 | `None` exactly when every index is below the vertex count; otherwise the first position whose index is not |
| `Meshes.CheckMesh` | src/dice_area.rs:484-500 | the model's own check of what the upload as a triangle list assumes; the program checks nothing here. No error exactly when the index list has whole triangles and every index names a vertex. A reported bad index is the entry at its position and is out of range |
| `Meshes.TablesChecked` | src/dice_area.rs:73-482 | a kind's index table passes the triangle-list check against its vertex list if and only if the kind is not Twelve |
| `Meshes.TwelveTableRejected` | src/dice_area.rs:406 | the check of the twelve-sided table fails at position 29, on the index 20 |
| `Meshes.TwelveTableOutOfRange` | src/dice_area.rs:389-450 | the out-of-range entries of the twelve-sided table are exactly positions 29, 53, 54, 57 and 60 |
| `Scenes.WithPerInstance` | src/dice_area.rs:660-749 | replacing one kind's buffer leaves the other five buffers, the dice and `prev_size` unchanged |
| `Scenes.InitialScene` | src/dice_area.rs:504-587 | a new renderer has no dice, `prev_size` 0 and six empty buffers |
| `Scenes.Added` | src/dice_area.rs:1006-1069 | adding a die appends its kind and keeps earlier dice in order; the count of that kind grows by one and every other count is unchanged; buffers and `prev_size` are unchanged |
| `Scenes.Refreshed` | src/dice_area.rs:643-760 | if the size differs from `prev_size` and is exactly 1, only the first die's kind's buffer becomes one origin instance and `prev_size` becomes 1; otherwise nothing changes |
| `Scenes.DrawGuard` | src/dice_area.rs:778 | the guard `!len > 0` holds exactly when the length is not `usize::MAX`, so it holds for an empty buffer |
| `Scenes.DrawCalls` | src/dice_area.rs:778-854 | a kind gets a draw call exactly when its buffer length is not `usize::MAX` |
| `Scenes.IntendedDrawCalls` | src/dice_area.rs:778-854 | corrected guard: a kind gets a draw call exactly when its buffer is non-empty |
| `Scenes.InitialSceneInv` | src/dice_area.rs:504-509 | a new renderer satisfies the bookkeeping invariant |
| `Scenes.RefreshedKeepsInv` | src/dice_area.rs:643-760 | the refresh step preserves the invariant |
| `Scenes.StepKeepsInv` | src/dice_area.rs:643-760 | adding, rolling and refreshing each preserve the invariant |
| `Scenes.RunKeepsInv` | src/dice_area.rs:643-760 | every sequence of adds, rolls and frames preserves the invariant |
| `Scenes.ReachableBounds` | src/dice_area.rs:655-751 | after any sequence of operations from construction, `prev_size` is at most 1, every buffer holds at most one instance, and at most one buffer is non-empty |
| `Scenes.SingleDieAtOrigin` | src/dice_area.rs:655-751 | one die and one frame leave that kind's buffer holding exactly one origin instance and every other buffer empty |
| `Scenes.NoRefreshAfterTwo` | src/dice_area.rs:655-760 | once two dice are placed before any rebuild, no later operation changes a buffer or `prev_size` |
| `Scenes.RefreshHappensOnce` | src/dice_area.rs:655-760 | after the first rebuild, later operations change no buffer, `prev_size` stays 1 and the first die stays first |
| `Scenes.DrawCallsAsWritten` | src/dice_area.rs:778-854 | in every reachable state the code as written issues draw calls for all six kinds, in draw order |
| `Scenes.EmptySceneDrawsSix` | src/dice_area.rs:778-854 | with no die placed, the code as written still issues six draw calls |
| `Scenes.IntendedDrawCallsReachable` | src/dice_area.rs:778-854 | with the corrected guard, a frame draws nothing before the first rebuild and only the first die's kind after it |
| `Area.Renderer.constructor` | src/dice_area.rs:504-612 | a new renderer is valid, has no dice and is in the initial bookkeeping state |
| `Area.Renderer.Refresh` | src/dice_area.rs:643-760 | the new bookkeeping is the refresh of the old; the dice and validity are kept |
| `Area.Renderer.IssueDrawCalls` | src/dice_area.rs:778-854 | the kinds drawn are those the guard as written lets through, in draw order |
| `Area.Renderer.Draw` | src/dice_area.rs:615-856 | one frame: the bookkeeping becomes its refresh, and the draw calls are those of the refreshed state |
| `Area.DiceArea.constructor` | src/dice_area.rs:859-862 | a new widget holds no renderer |
| `Area.DiceArea.Realize` | src/dice_area.rs:891-913 | with a GL error the renderer is left as it was; otherwise a fresh renderer in the initial state is installed |
| `Area.DiceArea.Unrealize` | src/dice_area.rs:915-918 | the renderer is dropped |
| `Area.DiceArea.Render` | src/dice_area.rs:923-926 | rendering needs a present renderer. It draws one frame, keeps the collection of dice and reports the frame as not handled |
| `Area.DiceArea.AddDie` | src/dice_area.rs:1006-1069 | with no renderer nothing changes; otherwise one fresh die of the kind is appended, earlier dice are kept, and the bookkeeping is `Added` of the old |
| `Area.DiceArea.AddFour` | src/dice_area.rs:1006-1015 | `AddDie` with kind Four |
| `Area.DiceArea.AddSix` | src/dice_area.rs:1017-1026 | `AddDie` with kind Six |
| `Area.DiceArea.AddEight` | src/dice_area.rs:1028-1037 | `AddDie` with kind Eight |
| `Area.DiceArea.AddTen` | src/dice_area.rs:1039-1048 | `AddDie` with kind Ten |
| `Area.DiceArea.AddTwelve` | src/dice_area.rs:1049-1058 | `AddDie` with kind Twelve |
| `Area.DiceArea.AddTwenty` | src/dice_area.rs:1060-1069 | `AddDie` with kind Twenty |
| `Area.DiceArea.Roll` | src/dice_area.rs:1071-1082 | with no renderer nothing changes. Otherwise the collection and the bookkeeping are kept. Every die shows a value in its range and a time read during the call, and the times follow collection order |

## Findings

| source | as written | input that shows it | evidently intended | confidence | as-written member | corrected member |
|---|---|---|---|---|---|---|
| src/dice_area.rs:778 | `if !self.four_per_instance.len() > 0` (and the same guard at lines 791, 804, 817, 830 and 843): `!` is the bitwise complement of the length, which is then compared with 0 | a realized renderer with no dice: every buffer has length 0, `!0` is `usize::MAX`, which is greater than 0, so six draw calls are issued | draw a kind only when its buffer is non-empty (`len() > 0`) | medium; not executed | `Scenes.EmptySceneDrawsSix` | `Scenes.IntendedDrawCallsReachable` |

`Area.Renderer.Draw` models the guard as written, because the renderer model
follows the code. `Scenes.IntendedDrawCalls` is the corrected guard. Its
lemma shows that, in every reachable state, it draws nothing before the first
rebuild and only the first die's kind after it.

## Left out

- GL and toolkit calls are not modelled: vertex, index and instance buffer
  creation, shader compilation, `Frame` clear/draw/finish, `Context::new`,
  and the `Backend` implementation (src/dice_area.rs:962-995). These are
  foreign library calls. Their `unwrap` failures are not modelled either.
  A draw call is recorded as the kind it is issued for.
- Floating-point content is not modelled: vertex positions and colours, the
  `PHI` constant and the aspect-ratio matrix (src/dice_area.rs:621-637). Only
  the length of each vertex list is kept. A world transform is kept as the
  translation it was built from, which is always the origin.
- Logging (`println!`) is left out, including the "Renderer doesn't exist"
  message of `add_*` and `roll`.
- Toolkit lifecycle plumbing is left out: the tick callbacks, `start_tick`,
  `start_roll` (which is empty) and `constructed`.
- The commented-out die removal and click handling are not modelled, because
  they are not implemented. The multi-die layout branch of the refresh step
  is a stub, and the model does nothing there, as the code does.
- The random generator's distribution is not modelled. A roll is a
  nondeterministic choice within the range, so nothing is said about
  uniformity.
- `Dice.Clock.Now`: readings are only non-decreasing, not strictly
  increasing, because a monotonic clock may return the same instant twice.
- The dice are objects in the model and values in a `Vec` in the code. The
  renderer's invariant requires the dice to be distinct objects, which stands
  for the code's ownership of each die.
- Integer widths: `val` (a `u32`) and `prev_size` (a `usize`) are unbounded
  in the model, because they never exceed 20 and 1. The buffer lengths in the
  draw guard are bounded by `usize::MAX` on a 64-bit target, and the guard
  models the complement on that width.
- src/glium_gl_area/imp.rs, src/window.rs and src/animated_roll.rs are not
  part of this model. The first is a separate GL area that draws and spins a
  single cube. The second holds the button handlers, which only call the
  `add_*` methods. The third is an unfinished animation object with
  floating-point timing fields.
