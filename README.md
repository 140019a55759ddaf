# rustplot-readwrite: waveform graphs and YAML config persistence, in Dafny

This project models the two components of the plotting application that carry
logic of their own.

- **`Graph`** (module `Graphs`, file `graph.dfy`): a waveform
  generator behind one plot. `Graph::new` starts at value 0, rising, with a
  random ceiling in [100, 255) and a random frequency in [0.5, 2). Each
  `update(elapsed)` advances the value. A `Triangle` graph counts up by one to
  the first whole number at or above its ceiling, then down by one to zero,
  where it turns again and draws a new ceiling. A `SinWave` graph takes
  `sin(elapsed * frequency * 2 * pi) * max_value`. The update then pushes
  `(elapsed, value)` onto the graph's sample buffer and keeps only the samples
  less than ten seconds old (`retain`). The model is a class whose fields are
  the Rust struct's fields; `Update` changes them in place. A ghost history of
  every sample ever pushed lets `Valid()` state that, while the clock never
  goes backwards, the buffer is exactly the last ten seconds of that history.
- **The application's graphs** (module `App`, file `graph.dfy`): `MyApp`
  creates four triangle graphs and six sine graphs, and every frame updates
  all of them with the same clock reading.
- **`DataConfig` persistence** (module `SaveLoad`, file `save_load.dfy`): the
  configuration file is `<config dir>/egui-app/data.yaml`, the directory being
  created on the way. If that fails, the file is `data.yaml` in the working
  directory. An explicit path always wins, and then no directory is created.
  `load` never fails: an unreadable file or unparsable content gives the
  default `{ data: 3.0 }`. `save` reports nothing to its caller; a serialiser
  or write failure leaves the files as they were. The file system is a class
  holding a map from paths to contents, a set of directories, a fixed set of
  forbidden paths and the configuration directory. The YAML serialiser and
  parser are function values in a `Codec`.

Random draws (`rand::rng().random_range`) are parameters constrained to the
ranges the source draws from. The sine of the clock reading is a parameter
`wave` in [-1, 1]. Times and sample values are reals.

## Model

| member | source | states |
|---|---|---|
| `Graphs.Graph.constructor` | src/graph.rs:19-29 | a new graph has no samples, value 0, is rising, and keeps the drawn ceiling and frequency; the graph invariant holds |
| `Graphs.Graph.Update` | src/graph.rs:31-57 | one step of the generator: a triangle moves by exactly +1 while rising and -1 while falling, turns to falling exactly when the value reaches the ceiling and to rising exactly when it reaches 0, and only then takes the new ceiling; a sine graph sets the value to wave * max_value and leaves direction, ceiling and frequency alone; the buffer becomes the old buffer pruned at `elapsed` followed by `(elapsed, value)`, grows by at most one, holds only samples less than ten seconds old and keeps every old sample that is; the invariant is kept |
| `Graphs.Graph.StepTriangle` | src/graph.rs:33-47 | the `Triangle` arm changes the value, direction and ceiling exactly as one `TriangleStep` |
| `Graphs.Window` | src/graph.rs:56 | pruning never lengthens the buffer |
| `Graphs.WindowKeepsExactlyRecent` | src/graph.rs:56 | every survivor is less than ten seconds old, and a sample survives exactly when it was in the buffer and is less than ten seconds old |
| `Graphs.WindowIsStableFilter` | src/graph.rs:56 | pruning is a stable filter: the survivors are the buffer's entries at the strictly increasing positions whose samples are recent, and every recent position is among them |
| `Graphs.KeptFromPositions` | src/graph.rs:56 | the kept positions are strictly increasing positions of the buffer, and a position is kept exactly when its sample is less than ten seconds old |
| `Graphs.WindowFromIsStableFilter` | src/graph.rs:56 | the pruned suffix of the buffer is exactly its samples at the kept positions, in order |
| `Graphs.WindowAppend` | src/graph.rs:55-56 | pruning a concatenation prunes each part separately |
| `Graphs.PushedSampleStays` | src/graph.rs:55-56 | the sample pushed at `elapsed` always survives the prune at `elapsed`, last, after the surviving older samples |
| `Graphs.WindowLater` | src/graph.rs:56 | pruning at an earlier time and then at a later one equals pruning once at the later one |
| `Graphs.PushThenPrune` | src/graph.rs:55-56 | push-then-prune on a buffer that is the window of a history, with a clock that has not gone back, gives the window of the extended history |
| `Graphs.HistoryWindowKept` | src/graph.rs:55-56 | while every clock reading is at least the previous one, the buffer stays the ten-second window of all samples ever pushed |
| `Graphs.Trough` | src/graph.rs:19-29 | a triangle starts at value 0, rising, with the drawn ceiling |
| `Graphs.TriangleStep` | src/graph.rs:33-47 | a triangle step moves the value by +1 while rising and -1 while falling, turns exactly when a rising value reaches the ceiling or a falling one reaches 0, and takes the drawn ceiling exactly when it turns at 0 |
| `Graphs.StepPreservesInv` | src/graph.rs:33-47 | a triangle step keeps the value whole and in [0, ceiling + 1), below the ceiling while rising and at least 1 while falling, with the ceiling in [100, 255) |
| `Graphs.Steps` | src/graph.rs:33-47 | a run of triangle steps, each with its own draw, only ever has the starting ceiling or one of the drawn ones |
| `Graphs.StepsPreserveInv` | src/graph.rs:33-47 | any run of triangle steps keeps that invariant, whatever in-range ceiling is drawn afresh at each trough |
| `Graphs.Peak` | src/graph.rs:36 | the value at which a rising triangle turns is the least whole number not below the ceiling |
| `Graphs.Ascent` | src/graph.rs:34-38 | from a trough the value counts 0, 1, 2, ... rising, keeps its ceiling whatever is drawn, and turns to falling exactly at the peak |
| `Graphs.Descent` | src/graph.rs:39-45 | from the peak the value counts down by one, falling, and at 0 turns to rising with the ceiling drawn at that step |
| `Graphs.TrianglePeriod` | src/graph.rs:33-47 | from a trough a triangle returns to a trough after exactly twice the peak steps, with the ceiling drawn at the last step, and in between its value stays in (0, peak] |
| `Graphs.SineSample` | src/graph.rs:49 | the sine sample lies within [-max_value, max_value] |
| `Graphs.Advance` | src/graph.rs:32-52 | the generator step of either kind changes the ceiling only when a triangle turns at a trough, to the drawn one; a sine step keeps the direction and gives a value within the amplitude |
| `Graphs.AdvancePreservesInv` | src/graph.rs:32-52 | both kinds of generator step keep the generator invariant (sine: value within the amplitude; triangle: as above) |
| `App.NewGraphs` | src/main.rs:29-37 | the application starts with four triangle graphs followed by six sine graphs, all distinct, empty, at value 0 and rising, each with its own drawn ceiling and frequency, an empty history and the window invariant in force |
| `App.UpdateAll` | src/main.rs:78-82 | one frame updates every graph with the same clock reading: each takes one generator step and is pushed and pruned at that reading, keeps its frequency, extends its history by the new sample, keeps the clock-never-went-back flag exactly when this reading is not earlier than its last one, and keeps its invariant, so after any frames with a clock that never went back every buffer is the ten-second window of all its samples |
| `SaveLoad.FileSystem.Read` | src/save_load.rs:53 | reading succeeds exactly when the file exists and is not forbidden, and then gives its whole content |
| `SaveLoad.FileSystem.CreateDirAll` | src/save_load.rs:16 | directory creation succeeds exactly when no prefix is a file and every missing prefix may be created; on success all prefixes become directories, otherwise nothing changes |
| `SaveLoad.FileSystem.Write` | src/save_load.rs:32 | a write replaces the file's content exactly when it is allowed, and changes nothing otherwise |
| `SaveLoad.FileSystem.AppDir` | src/save_load.rs:14-15 | the application directory exists exactly when a configuration directory does, and is `egui-app` under it |
| `SaveLoad.FileSystem.ConfigPath` | src/save_load.rs:13-22 | a configuration path, when there is one, names the file `data.yaml` |
| `SaveLoad.FileSystem.DirsAfterConfigPath` | src/save_load.rs:16-19 | looking up the configuration path never removes a directory |
| `SaveLoad.GetConfigPath` | src/save_load.rs:13-22 | the result is None exactly when there is no configuration directory or `egui-app` under it cannot be created; otherwise it is the configuration directory with `egui-app` then `data.yaml` appended, whose parent directory now exists; files are untouched |
| `SaveLoad.ChoosePath` | src/save_load.rs:26-28 | an explicit path is used unchanged; without one the configuration path, and without that `data.yaml` |
| `SaveLoad.ResolvePath` | src/save_load.rs:49-51 | the path used is the chosen one, and the configuration directory is looked up (and possibly created) only when no explicit path is given |
| `SaveLoad.LoadOutcome` | src/save_load.rs:53-62 | an unreadable file gives the default `{ data: 3.0 }`; unparsable content gives the default; parsed content gives what was parsed; so the result is always the default or exactly what the parser made of the file |
| `SaveLoad.LoadOfSavedText` | src/save_load.rs:30-32 | given a serialiser/parser round trip, loading the text `save` writes gives the saved configuration back |
| `SaveLoad.Load` | src/save_load.rs:48-63 | `load` reads the chosen path (an explicit one unchanged) and returns the load outcome of that read; it never changes any file |
| `SaveLoad.Save` | src/save_load.rs:25-45 | `save` writes the serialised text to the chosen path (an explicit one unchanged) when serialisation succeeds and the write is allowed, and otherwise leaves every file as it was; a serialiser failure writes nothing |
| `SaveLoad.SaveThenLoad` | src/save_load.rs:25-63 | saving and then loading with the same path argument leaves the directories as one path lookup does and the files as the save left them, and gives back the saved configuration whenever serialisation succeeds and the write is allowed |

## Left out

- Drawing and the GUI (src/main.rs, src/font_loader.rs): panels, plots, menus, file dialogs, icons and fonts. Of `MyApp` only the creation of the ten graphs (`App.NewGraphs`) and the per-frame update (`App.UpdateAll`) are modelled; the client `App.FirstFrame` creates the graphs and runs two frames.
- The sine itself: `sin(elapsed * frequency * 2 * pi)` is a parameter `wave` in [-1, 1]; the model keeps the multiplication by `max_value`, so `frequency` is carried but not used.
- Random numbers: each `random_range` draw is a parameter required to lie in the drawn range; the model does not say how draws are distributed.
- Floating point: `f64` times and values and the `f32` config field are reals; rounding, infinities and NaN are not modelled (a NaN clock reading would make every sample fail the window test).
- The YAML format: `serde_yaml` is abstract; the save/load round trip is proved under the assumption that the parser reads back what the serialiser writes.
- The operating system: `dirs::config_dir`, permissions and failures are modelled by a fixed configuration directory and a fixed set of forbidden paths. A `create_dir_all` that fails part-way is modelled as creating nothing, and writes are atomic.
- Logging (`println!`, `eprintln!`) has no observable contract and is omitted.
- The source has no keyed value store, no 200-sample FIFO, no background producer thread or locking, and no component or data-source schema, so none is modelled; the only bounded buffer is the ten-second window of `Graph`, and the only persisted document is the single `data` field.
