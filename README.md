# Workout-program conversation, modelled in Dafny

This project models the core of a Telegram fitness bot (`main.py`): the
two-step conversation that picks a workout program. `/create` asks for a goal,
the user answers with one of four goal labels, the bot asks for a level, the
user answers with one of three level labels, and the bot sends the catalog's
program for that (goal, level) pair, formatted as one message.

The model has four parts.

- `Labels`: a generic label table. It is an ordered list of (key, label) pairs
  in the insertion order of the Python dictionary it stands for. `FirstKey` is
  the specification of the reverse lookup: the key of the first entry whose
  label equals the text exactly. `FindKey` is the handlers' `for … break` loop,
  proved equal to `FirstKey`. `KeyboardRows` is the reply keyboard: one label
  per row.
- `Vocabulary`: the `Goal` and `Level` enumerations, each with its internal
  `Key()` and Russian `Label()`, the two tables `GoalTable` and `LevelTable` in
  declared order, and `GoalOfLabel` / `LevelOfLabel`. These read a label back
  by cases on the enumeration and serve as the reference that the table scan
  is proved against.
- `Formatter`: the `ProgramRecord` a catalog entry holds and the program
  message. `ProgramText` is the concatenation of the message's sections in
  display order. `BuildProgramText` builds it the way the handler does, with
  one append per feature line and per schedule line, and is proved equal to
  `ProgramText`. The layout lemmas state where each section sits in the text
  and that the sections appear in order.
- `Conversation`: a `Session` class. Its fields are the conversation `state`
  (`AskGoal`, `AskLevel`, `End`) and the per-user scratch storage `userData`
  (`map<string, string>`). Its methods are the three handlers. Each handler
  returns the replies it sends, as text plus a keyboard action. The catalog
  (`get_program_by_goal`) is a function parameter from (goal key, level key)
  to a `ProgramRecord`.

The model follows the code's behaviour exactly in these points:

- The tip falls back to the default only when the record has no `tips` entry.
  An empty tip is shown as it is.
- A catalog miss has no handling in the code, so the model has none: the
  catalog is a total function.
- The code has no cancel handler and no idle-state handling of text.
- `handle_level` takes the stored goal as given. `HandleLevel` therefore
  requires `Valid()` and the state `AskLevel`, the only state in which the
  conversation reaches it, instead of inventing an error path for a missing
  goal. The `Session.Valid` invariant says the entry is present whenever the
  state is `AskLevel`, and every handler keeps that invariant.
- `/create` does not clear the scratch storage. `CreateProgram` leaves
  `userData` unchanged.

The source tests the looked-up key by Python truthiness (`if goal_key:`). The
model says the same with `Truthy`: the key was found and is not the empty
string. Every key in the tables is non-empty (`GoalTableWellFormed`,
`LevelTableWellFormed`), so this is the same as "found".

## Model

| member | source | states |
|---|---|---|
| `Labels.FirstKey` | main.py:64-68 | the lookup finds nothing exactly when no entry's label equals the text; otherwise it yields the key of an entry whose label is the text, and no earlier entry has that label (first match) |
| `Labels.FindKey` | main.py:91-95 | the scanning loop with `break` returns exactly the first-match key `FirstKey(table, text)` |
| `Labels.FirstKeyIsEntry` | main.py:27-38 | when labels are pairwise distinct, the lookup yields key `k` if and only if `(k, text)` is an entry of the table |
| `Labels.KeyboardRows` | main.py:50 | the keyboard has one row per table entry, and row `i` holds exactly the label of entry `i` |
| `Vocabulary.GoalTableWellFormed` | main.py:27-32 | the goal table lists the four goals in declared order; its labels are pairwise distinct, every key is non-empty and keys identify goals |
| `Vocabulary.LevelTableWellFormed` | main.py:34-38 | the level table lists the three levels in declared order; its labels are pairwise distinct, every key is non-empty and keys identify levels |
| `Vocabulary.GoalOfLabel` | main.py:27-32 | the text reads back as goal `g` if and only if it equals `g`'s label |
| `Vocabulary.LevelOfLabel` | main.py:34-38 | the text reads back as level `l` if and only if it equals `l`'s label |
| `Vocabulary.GoalLookupAgrees` | main.py:63-68 | scanning the goal dictionary yields the key of the goal whose label the text is, and nothing when the text is no goal label |
| `Vocabulary.LevelLookupAgrees` | main.py:90-95 | scanning the level dictionary yields the key of the level whose label the text is, and nothing when the text is no level label |
| `Vocabulary.SpaceEdgedTextRejected` | main.py:63-68 | any text that starts or ends with a space is neither a goal nor a level answer: the match does not trim |
| `Vocabulary.PaddedLabelsRejected` | main.py:90-95 | every goal label and every level label with a space added before or after it is rejected |
| `Formatter.TipOf` | main.py:127 | the tip is the record's own whenever it has one, even an empty one; the default text is used only when it has none |
| `Formatter.SectionContents` | main.py:104-130 | the message sections are, in order: title, description, one `• f` line per feature in record order, one `• day: workout` line per schedule entry in insertion order, nutrition, water, tip |
| `Formatter.SectionPlaced` | main.py:104-130 | every section occurs in the message text at the position where the sections before it end |
| `Formatter.SectionsInOrder` | main.py:104-130 | a section with a higher index starts no earlier than any lower-indexed section ends |
| `Formatter.ProgramTextLayout` | main.py:104-130 | the message holds the title, the description, each feature line, each schedule line, the nutrition, the water guidance and the tip, each at its section's position |
| `Formatter.BuildProgramText` | main.py:104-130 | building the text with one append per feature, per schedule day and for the footer yields exactly the sectioned message |
| `Conversation.GoalPrompt` | main.py:50-56 | the goal question offers every goal label, in declared order, one per row |
| `Conversation.LevelPrompt` | main.py:74-80 | the level question offers every level label, in declared order, one per row |
| `Conversation.Session.CreateProgram` | main.py:48-57 | from any state, `/create` sends the same goal prompt and moves to `AskGoal`, leaving the scratch storage as it was |
| `Conversation.Session.HandleGoal` | main.py:60-84 | a goal label stores that goal's key under `"goal"` (no other entry changes), sends the level prompt and moves to `AskLevel`; any other text sends the goal notice, stays in `AskGoal` and leaves the storage unchanged |
| `Conversation.Session.HandleLevel` | main.py:87-143 | a level label asks the catalog for exactly (stored goal, that level's key), sends the formatted program and a farewell that removes the keyboard (taking that removal to succeed), empties the storage and ends; any other text sends the level notice, stays in `AskLevel` and leaves the storage, stored goal included, unchanged |
| `Conversation.CompleteDialog` | main.py:48-143 | `/create`, a goal label and a level label, from any prior state, produce the goal prompt, the level prompt, the program for (that goal's key, that level's key) and the farewell, and end with empty storage |
| `Conversation.RetryAfterRejectedGoal` | main.py:60-143 | from any state, a rejected goal answer leaves the conversation able to finish: a later goal label and level label still deliver the program for that pair |

## Left out

- Telegram transport and rendering are not modelled: `Update`, `reply_text`, the keyboard flags `one_time_keyboard` and `resize_keyboard`, and `parse_mode='Markdown'`. A reply is modelled as its text plus a keyboard action (keep, offer rows, remove).
- `async`/`await` and the conversation handler's dispatch are not modelled. The wiring that maps `ASK_GOAL` to `handle_goal` and `ASK_LEVEL` to `handle_level` is not in main.py. The handlers are modelled as methods called in sequence.
- The `/start` welcome reply (main.py:41-45) is not modelled. It is one constant message and changes no state.
- Logging setup and reading `BOT_TOKEN` from the environment are process configuration and are not modelled.
- `programs.py` (`get_program_by_goal`) is not part of this model. It is a parameter `Catalog` from (goal key, level key) to a record. A catalog miss or a failure inside it is not modelled, and neither is a record missing a subscripted key (`title`, `description`, `features`, `weekly_schedule`, `nutrition` or `water`), which in the source raises a KeyError before any reply and before `user_data` is cleared.
- The record's fields are modelled as strings. The source interpolates whatever values the catalog holds.
- `Conversation.Session.HandleLevel`: requires `Valid()` and the state `AskLevel`, so the `"goal"` entry is present. The source would pass `None` to the catalog without it, and the model does not follow that path.
- `Conversation.Session.HandleLevel`: assumes the keyboard-removal call for the farewell (main.py:135) succeeds. As written it calls `ReplyKeyboardMarkup.remove_keyboard()`, which the Telegram library does not provide (removal is the separate class `ReplyKeyboardRemove`), so it would raise AttributeError after the program message is sent and before `user_data.clear()` and `return ConversationHandler.END` (main.py:139-140) run, leaving the conversation in `ASK_LEVEL` with the goal still stored. The library is not part of this model, so this follows from reading its documented interface, not from a run.
- A cancel handler is not modelled: the source file ends at the comment announcing one.
