# Blender add-on operators, modelled in Dafny

This project models the logic inside four small Blender add-ons. The host's
scene is replaced by an explicit scene: an ordered list of object records, each
with a name, a kind (mesh, light, empty, other), the `hide_set` hidden state,
`hide_render`, `hide_viewport`, and, for a mesh, its vertex and polygon
counts. An object is identified by its position in that list. A selection is
an ordered list of positions.

- **RenderBuddy** (`render_buddy.dfy`, with the Python string built-ins it
  relies on in `py_text.dfy`): the "Multi-Size Render" operator. It splits its
  `resolutions` text on commas. It reads each token as `W x H` the way
  `map(int, res.strip().lower().split('x'))` does. For each size that parses,
  it sets the resolution and the numbered output path `original_WxH` and
  renders one still. It warns, naming the raw token, for every token that
  does not parse and for every render that fails. It then puts the saved
  settings back and reports the number of sizes rendered. The render
  settings and the renderer are classes. The renderer records each call
  (the settings it saw, and whether it succeeded) in a log; whether a call
  succeeds is left open.
- **LightManager** (`light_manager.dfy`): "Solo Selected Light". When the
  first selected object is a light, every light is hidden from render and
  viewport except that one, which is shown. Otherwise the operator cancels
  with a warning.
- **ObjectIsolator** (`object_isolator.dfy`): "Isolate Selected" hides exactly
  the objects that are not selected. "Unhide All Objects" shows every object.
- **SceneTracker** (`scene_tracker.dfy`): the counts the panel shows. These
  are the number of objects and the vertex and polygon totals over mesh
  objects.

`scene.dfy` holds the shared scene records, report messages and statuses.
`seq_facts.dfy` holds small facts about sequences that the loop proofs use.

Each operator is a method that changes the scene (or the render settings and
the renderer) in place. Each is proved against a function that says what the
new state is, such as `Isolated`, `Unhidden`, `Soloed`, `Planned` or
`Warnings`. Lemmas then prove what the add-ons promise about those functions.
A `report` call is modelled as a message the operator returns.

Python's `int()` is modelled by the predicate `PyText.IsIntLiteral`, which
stands in for the interpreter's own parser. It accepts optional whitespace,
an optional sign, and decimal digits with single underscores between digits,
then optional whitespace. `PyText.IntValue` gives the value of such a text.

In the Python source, each token is parsed inside the loop just before that
token's render. The model parses all tokens first, in `ParseTokens`, and then
runs the loop over the parsed tokens. Parsing reads nothing the loop writes,
so the renders, warnings and counts are the same. The `for` loop
(`RenderSizes`), one pass of it (`RenderToken`) and the body of the `try` once a
size parses (`RenderSize`) are separate methods; `MultiSizeRender` is the
operator around them.

The light-solo operator checks only the first selected object, so
other selected lights are hidden like any other light. The model follows the
code here, not the looser description "select one light".

## Model

| member | source | states |
|---|---|---|
| RenderBuddy.MultiSizeRender | Renderbuddy.py:109-136 | Restores resolution x, y and filepath to their values before the call, whatever the tokens. The new log entries render, in token order, exactly the frames of the tokens that parse, each with its size and the path `original_WxH`. The success count is the number of those renders that succeeded. The messages are one warning per unparsed token or failed render, in token order, then `Rendered N sizes`. Successes plus messages equal the token count plus one. The status is always FINISHED. |
| RenderBuddy.RenderSizes | Renderbuddy.py:116-128 | The loop keeps the old log as a prefix. It appends exactly the planned frames in token order. It counts the successful renders and warns once per rejected token or failed render. Successes plus warnings equal the number of tokens. It leaves the settings holding the size and path of the last token that parses, or unchanged when no token parses. |
| RenderBuddy.RenderToken | Renderbuddy.py:118-128 | One pass over the next token extends the loop's bookkeeping from the first i tokens to the first i + 1: the log gains one call exactly when the token parses, and the success count or the warnings grow by one. A token that does not parse leaves the settings unchanged; one that parses leaves them holding its width, height and `original_WxH` path. |
| RenderBuddy.RenderSize | Renderbuddy.py:120-125 | Sets resolution x, y and filepath to the parsed size and its path. The renderer's log gains exactly one call, which saw those settings. |
| RenderBuddy.Renderer.Render | Renderbuddy.py:125 | A render appends one entry to the log, with the current settings and its outcome. The outcome itself is not constrained. |
| RenderBuddy.ParseResolution | Renderbuddy.py:119 | `Some((int(a), int(b)))` exactly when the stripped, lower-cased token splits on `x` into two parts a and b that `int()` accepts; `None` otherwise. |
| RenderBuddy.OutputPath | Renderbuddy.py:124 | The numbered path `original + "_" + str(w) + "x" + str(h)`. |
| RenderBuddy.InvalidWarning | Renderbuddy.py:128 | The warning `Invalid resolution: ` followed by the raw token. |
| RenderBuddy.Warnings | Renderbuddy.py:118-128 | One warning per token, in token order, for each token that does not parse and each parsing token whose render outcome is a failure. |
| RenderBuddy.Summary | Renderbuddy.py:135 | The closing report `Rendered N sizes` at level INFO. |
| RenderBuddy.LastShownPlanned | Renderbuddy.py:120-124 | The settings after the loop are the frame of the last token that parses, or the starting settings when none parses. |
| PyText.Strip | Renderbuddy.py:119 | `str.strip()`: the text without its leading and trailing whitespace, as `str.isspace()` defines it. |
| PyText.Lower | Renderbuddy.py:119 | `str.lower()` on ASCII capitals; the result has the same length as the text. |
| PyText.Split | Renderbuddy.py:117-119 | `str.split(sep)` for one separator character: at least one part, and no part holds the separator. |
| PyText.IsIntLiteral | Renderbuddy.py:119 | The texts `int()` accepts in base 10: optional whitespace, an optional sign, decimal digits with single underscores between digits, optional whitespace. |
| PyText.IntValue | Renderbuddy.py:119 | The value `int()` gives such a text: its digits' decimal value, negated after a minus sign. |
| PyText.Str | Renderbuddy.py:124 | `str(n)`: the shortest decimal numeral of n, with a leading minus sign when n is negative. |
| LightManager.CanSolo | LightManager.py:20 | The guard: the selection is non-empty and its first object is a light. |
| RenderBuddy.ParseTokensAt | Renderbuddy.py:117-119 | The item at position i pairs the i-th comma-separated token with that token's own parse. |
| RenderBuddy.PlannedAt | Renderbuddy.py:117-126 | A token at position k that parses is rendered at its rank among the parsing tokens, with its own width, height and `original_WxH` path built from the parsed integers. |
| RenderBuddy.PlannedAppend | Renderbuddy.py:117-126 | The frames of two token lists, one after the other, are the frames of the first followed by those of the second. A rejected token stops nothing. |
| RenderBuddy.AcceptedCountAppend | Renderbuddy.py:117-119 | The number of parsing tokens in two lists, one after the other, is the sum of the two counts. |
| RenderBuddy.EveryTokenAccountedFor | Renderbuddy.py:116-128 | Each token yields exactly one success or exactly one warning: warnings plus successes equal the number of tokens. |
| RenderBuddy.AllRendersSucceed | Renderbuddy.py:118-128 | When every render succeeds, the warnings are exactly those for the tokens that do not parse, in order. |
| RenderBuddy.SizeSuffixRoundTrip | Renderbuddy.py:119-124 | The size text `str(w) + "x" + str(h)` in the output path parses back to exactly `(w, h)`, for every pair of integers. |
| RenderBuddy.DefaultSizeParses | Renderbuddy.py:119 | `"1920x1080"` parses as 1920 by 1080. |
| RenderBuddy.NegativeSizeParses | Renderbuddy.py:119-121 | There is no range check: `"-5x0"` parses as -5 by 0 and goes on to the render. |
| RenderBuddy.SpacedSizeParses | Renderbuddy.py:119 | `" 1080X1080"` parses as 1080 by 1080: the blank is stripped and the capital X is lowered. |
| RenderBuddy.WordRejected | Renderbuddy.py:117-119 | `"bad"` is rejected, because it has no `x`. |
| RenderBuddy.EmptyTokenRejected | Renderbuddy.py:117-119 | The empty token left by a trailing comma is rejected. |
| RenderBuddy.ThreePartsRejected | Renderbuddy.py:117-119 | `"1x2x3"` is rejected, because it splits into three parts. |
| RenderBuddy.MissingHeightRejected | Renderbuddy.py:117-119 | `"1x"` is rejected, because its second part is empty and `int()` refuses it. |
| PyText.StrRoundTrip | Renderbuddy.py:119-124 | `int(str(n)) == n` for every integer n. The text `str` produces is accepted by `int()`. |
| PyText.SizeTextUntouched | Renderbuddy.py:119-124 | `strip()` and `lower()` leave `str(w) + "x" + str(h)` unchanged, and neither numeral contains `x`. |
| PyText.StrShape | Renderbuddy.py:124 | `str(n)` is nonempty, ends in a digit, and is all digits apart from a leading minus sign. |
| PyText.NatStrShape | Renderbuddy.py:124 | The numeral of a natural number is all digits, with no leading zero. |
| PyText.NatStrValue | Renderbuddy.py:124 | The digits of the numeral of n are worth n. |
| PyText.NatStrIsDigitRun | Renderbuddy.py:119-124 | The numeral of a natural number has the digit form that `int()` accepts. |
| PyText.JoinSplit | Renderbuddy.py:117-119 | Joining the parts of `split(sep)` with `sep` gives back the text. |
| PyText.SplitJoin | Renderbuddy.py:117-119 | Splitting the join of separator-free parts gives back those parts. |
| PyText.SplitNoSeparator | Renderbuddy.py:119 | A text without the separator splits into the single part it is. |
| PyText.SplitAtSeparator | Renderbuddy.py:119 | A separator-free prefix followed by the separator is the first part, and the rest splits on its own. |
| PyText.SplitInTwo | Renderbuddy.py:119 | A text with exactly one separator splits into exactly the two parts around it. |
| PyText.TrimLeftSpec | Renderbuddy.py:119 | Left trimming removes exactly the longest leading run of blanks. The rest is a suffix that does not start with a blank. |
| PyText.TrimRightSpec | Renderbuddy.py:119 | Right trimming removes exactly the longest trailing run of blanks. The rest is a prefix that does not end with a blank. |
| PyText.TrimUntouched | Renderbuddy.py:119 | A text whose two ends are not blanks is left unchanged by trimming. |
| PyText.LowerUntouched | Renderbuddy.py:119 | `lower()` leaves a text without capital letters unchanged. |
| LightManager.SoloLight | LightManager.py:18-28 | If the selection is empty or its first object is not a light: CANCELLED, no object changed, and the warning "Select one light". Otherwise: FINISHED, the objects are soloed on the first selected object, and "Soloed: name" is reported. |
| LightManager.SoloLoop | LightManager.py:23-26 | The loop leaves the objects exactly as soloing the kept position specifies. |
| LightManager.SoloedAt | LightManager.py:23-26 | After soloing, a light ends with hide_render and hide_viewport both equal to "not the kept object". A non-light, and every other field, is unchanged. |
| LightManager.SoloIdempotent | LightManager.py:23-26 | Soloing twice on the same light gives the same flags as soloing once. |
| LightManager.SoloLeavesOneLight | LightManager.py:20-26 | When the kept object is a light, a light is shown in render (and in viewport) if and only if it is the kept one, so other selected lights are hidden. Names, kinds, counts and hidden states are unchanged. |
| ObjectIsolator.Isolate | ObjectIsolator.py:27-31 | Every object's hidden state becomes "not in the selection", nothing else changes, and the status is FINISHED. |
| ObjectIsolator.UnhideAll | ObjectIsolator.py:37-40 | Every object's hidden state becomes false, nothing else changes, and the status is FINISHED. |
| ObjectIsolator.IsolatedAt | ObjectIsolator.py:29-30 | Isolating gives the object at position i the hidden state "i is not selected" and leaves its other fields unchanged. |
| ObjectIsolator.UnhiddenAt | ObjectIsolator.py:38-39 | Unhiding clears each object's hidden state and leaves its other fields unchanged. |
| ObjectIsolator.IsolateIdempotent | ObjectIsolator.py:29-30 | Isolating twice with the same selection gives the same state as isolating once. |
| ObjectIsolator.UnhideIdempotent | ObjectIsolator.py:38-39 | Unhiding twice gives the same state as unhiding once. |
| ObjectIsolator.UnhideUndoesIsolate | ObjectIsolator.py:27-40 | Isolating and then unhiding gives the same state as unhiding alone. |
| ObjectIsolator.IsolateAfterUnhide | ObjectIsolator.py:27-40 | Unhiding and then isolating gives the same state as isolating alone. |
| ObjectIsolator.IsolateDependsOnMembership | ObjectIsolator.py:28-30 | Two selections with the same members isolate alike, whatever their order or repetitions. |
| ObjectIsolator.IsolateNothingHidesAll | ObjectIsolator.py:28-30 | An empty selection hides every object. |
| ObjectIsolator.VisibilityOnly | ObjectIsolator.py:27-40 | Neither operator changes the object list, names, kinds, counts, hide_render or hide_viewport. |
| SceneTracker.SceneStatistics | Scenetracker.py:19-32 | The object count is the number of objects of any kind. The vertex and polygon totals are the sums over mesh objects only. An empty scene gives (0, 0, 0). The scene is not modified. |
| SceneTracker.AddObject | Scenetracker.py:21-28 | Adding one object anywhere raises the count by one. It raises the totals by its vertex and polygon counts if it is a mesh, and by nothing otherwise. |
| SceneTracker.TotalsOfConcat | Scenetracker.py:22-28 | The totals of two object lists, one after the other, are the sums of their totals. |
| SceneTracker.NoMeshNoGeometry | Scenetracker.py:24-28 | A scene without meshes has vertex and polygon totals of zero. |
| SceneTracker.TotalsIgnoreVisibility | Scenetracker.py:24-28 | Scenes that differ only in visibility have the same totals, so hidden objects are counted too. |

## Left out

- Camera framing (`calculate_object_bounds`, `RB_OT_ReframeCamera`, Renderbuddy.py:18-97) is left out, because it is floating-point matrix work.
- The render itself is left out. `RenderBuddy.Renderer.Render` only logs the settings it saw and leaves its success open; the host decides it.
- RenderBuddy.MultiSizeRender: the bare `except` also catches failures other than a bad token or a failed render, such as the host rejecting a resolution out of its range or a keyboard interrupt. Here only the parse and the render can fail; the host's clamping of resolution values is not modelled.
- PyText.IsIntLiteral: Python's `int()` also accepts non-ASCII decimal digits; the model accepts ASCII digits only. Python also limits the length of numerals that `int()` and `str()` convert; the model has no limit.
- PyText.Lower: only the ASCII capitals are lowered. No other character can make a size token parse, so acceptance and the sizes read are unaffected.
- `hide_set`'s per-view-layer state is one `hidden` flag per object. Undo is not modelled.
- Panel layouts other than the counting in `ST_PT_Panel.draw`, add-on registration and the `bl_info` records are left out, because they are host UI.
- Scenetracker.py:39-52 is left out. It is a stray camera-keyframing fragment whose indentation keeps the module from importing.
- Object identity is a position in the scene's object list, and the selection is a list of positions. `obj not in selected` and `obj != selected[0]` become comparisons of positions.
