# To-Do app: the shared view model

This project models `SharedViewModel`, the view model that the list screen and
the add/update screens of an Android to-do list app share. It holds three
things:

- the form validator, `verifiedDataFromUser`. It accepts a title and a
  description exactly when neither is the empty string. Nothing is trimmed, so
  fields made only of blanks pass.
- the priority parser, `parsePriority`. It maps the three exact labels
  `"High Priority"`, `"Medium Priority"` and `"Low Priority"` to `HIGH`,
  `MEDIUM` and `LOW`. Every other string maps to `LOW`, so it never fails.
- the `emptyDatabase` flag. It starts as `false`. Each call of
  `checkIfDatabaseEmpty(list)` overwrites it with whether `list` is empty.

Layout:

- `models.dfy`, module `Models`: the `Priority` enum. The enum's own source
  file is not part of this model; its three constants are taken from the parser.
- `shared_view_model.dfy`, module `Fragments`: the validator and the parser as
  functions with lemmas, `PriorityLabel` (the inverse of the parser on its
  three labels), and the class `SharedViewModel` with its
  `emptyDatabase` field and `CheckIfDatabaseEmpty` method.

The class is generic in `T`, which stands for the to-do item record
(`ToDoData`). The record's source is not part of this model, and none of its
fields matter to the flag. A ghost field `checked` records the lists passed so
far. `Valid()` ties the flag to `Replay(false, checked)`, which folds the calls
over the initial `false`. The lemmas about `Replay` state what any run of calls
leaves behind: the last call wins, calls compose, and repeating a call changes
nothing.

## Model

| member | source | states |
|---|---|---|
| `Fragments.VerifiedDataFromUser` | app/src/main/java/com/soulll/todoapp/fragments/SharedViewModel.kt:41-43 | the entry is accepted if and only if both the title and the description are non-empty |
| `Fragments.EmptyTitleRejected` | app/src/main/java/com/soulll/todoapp/fragments/SharedViewModel.kt:41-43 | an empty title is rejected, whatever the description |
| `Fragments.EmptyDescriptionRejected` | app/src/main/java/com/soulll/todoapp/fragments/SharedViewModel.kt:41-43 | an empty description is rejected, whatever the title |
| `Fragments.BlankFieldsAccepted` | app/src/main/java/com/soulll/todoapp/fragments/SharedViewModel.kt:42 | nothing is trimmed: `" "`/`" "` is accepted, and a leading blank makes any title and description acceptable |
| `Fragments.ParsePriority` | app/src/main/java/com/soulll/todoapp/fragments/SharedViewModel.kt:45-55 | the result is `HIGH` exactly for `"High Priority"`, `MEDIUM` exactly for `"Medium Priority"`, and `LOW` for every other string |
| `Fragments.PriorityLabel` | app/src/main/java/com/soulll/todoapp/fragments/SharedViewModel.kt:46-52 | the label of each priority is a string the parser maps back to that priority (the parser's inverse on its three labels) |
| `Fragments.PriorityLabelInjective` | app/src/main/java/com/soulll/todoapp/fragments/SharedViewModel.kt:47-52 | two priorities have the same label if and only if they are the same priority |
| `Fragments.ParsePriorityRecognised` | app/src/main/java/com/soulll/todoapp/fragments/SharedViewModel.kt:46-54 | a string that is one of the labels is the label of what it parses to; a string that is none of them parses to `LOW` |
| `Fragments.ParsePriorityFallback` | app/src/main/java/com/soulll/todoapp/fragments/SharedViewModel.kt:53 | case variants, a truncated label and the empty string fall back to `LOW` |
| `Fragments.Step` | app/src/main/java/com/soulll/todoapp/fragments/SharedViewModel.kt:20 | one call overwrites the flag with whether the given list is empty, whatever the flag was before |
| `Fragments.Replay` | app/src/main/java/com/soulll/todoapp/fragments/list/ListFragment.kt:45-46 | the flag after the observer passes each list snapshot in turn; with no snapshot yet it keeps its initial value |
| `Fragments.SharedViewModel.constructor` | app/src/main/java/com/soulll/todoapp/fragments/SharedViewModel.kt:17 | the flag starts as `false`, before any list has been checked |
| `Fragments.SharedViewModel.CheckIfDatabaseEmpty` | app/src/main/java/com/soulll/todoapp/fragments/SharedViewModel.kt:19-21 | the flag becomes `Step` of its old value and the list, so it is true if and only if the given list is empty; the call is appended to the history and the invariant is kept |
| `Fragments.ReplayLastWins` | app/src/main/java/com/soulll/todoapp/fragments/SharedViewModel.kt:19-21 | after one or more calls, the flag says whether the last list passed was empty, whatever it was before |
| `Fragments.ReplayAppend` | app/src/main/java/com/soulll/todoapp/fragments/SharedViewModel.kt:19-21 | running a batch of calls and then another batch gives the same flag as running both batches in one go |
| `Fragments.EmptyDatabaseMeaning` | app/src/main/java/com/soulll/todoapp/fragments/SharedViewModel.kt:17-21 | from the initial `false`, the flag is true if and only if some call was made and the last call passed an empty list |
| `Fragments.CheckTwiceIsCheckOnce` | app/src/main/java/com/soulll/todoapp/fragments/SharedViewModel.kt:19-21 | passing the same list twice in a row leaves the same flag as passing it once |

## Left out

- The spinner listener (`SharedViewModel.kt:23-39`) is left out. It only sets
  the text colour of an Android view from colour resources, which is
  presentation.
- `MutableLiveData` observers and change notification are left out. The flag
  is a plain field, and the model says nothing about who is told when it
  changes. Android's `setValue` also demands the main thread and throws
  otherwise; that requirement is not modelled, so `CheckIfDatabaseEmpty`
  cannot fail. Its one caller, the list screen's observer, runs on the main
  thread.
- The constructor's `Application` parameter is dropped. Only the spinner
  listener uses it.
- `ListFragment.kt` is left out, except for its observer
  (`ListFragment.kt:45-46`), which feeds each new list snapshot to
  `checkIfDatabaseEmpty`; `Replay` folds over those calls. The rest of the
  file holds the fragment lifecycle, data binding, the list adapter,
  swipe-to-delete with the timed Undo snackbar, and the delete-all dialog. All
  of it is UI wiring over the item store (`ToDoViewModel`), and the store's
  code is not part of this model. Modelling the store's insert, delete,
  delete-all and undo contract would mean inventing behaviour that
  SharedViewModel.kt and ListFragment.kt do not have.
- The item record `ToDoData` and its fields are not modelled, because its
  source is not part of this model. Nothing in SharedViewModel.kt checks a
  record's fields, so the rule that stored items have a non-empty title and
  description is not modelled either.
