/** The view model shared by the list and add/update screens
    (com.soulll.todoapp.fragments.SharedViewModel): the form validator, the
    priority-label parser and the "database is empty" flag. */
module Fragments {
  import opened Models

  // ---------------------------------------------------------------------------
  // Add/Update form
  // ---------------------------------------------------------------------------

  /** The form accepts an entry exactly when neither field is the empty string.
      Nothing is trimmed, so a title or description of blanks is accepted. */
  function VerifiedDataFromUser(title: string, description: string): (ok: bool)
    ensures ok <==> |title| > 0 && |description| > 0
  {
    !(title == "" || description == "")
  }

  /** An empty title is rejected, whatever the description. */
  lemma EmptyTitleRejected(description: string)
    ensures !VerifiedDataFromUser("", description)
  {
  }

  /** An empty description is rejected, whatever the title. */
  lemma EmptyDescriptionRejected(title: string)
    ensures !VerifiedDataFromUser(title, "")
  {
  }

  /** Nothing is trimmed: a single blank is a valid title and description,
      and a leading blank makes any field acceptable. */
  lemma BlankFieldsAccepted(title: string, description: string)
    ensures VerifiedDataFromUser(" ", " ")
    ensures VerifiedDataFromUser(" " + title, " " + description)
  {
  }

  /** Maps the label chosen in the form to a priority. The match is exact and
      case-sensitive; every other string, the empty one included, falls back
      to LOW, so the parser never fails. */
  function ParsePriority(priority: string): (p: Priority)
    ensures p == HIGH <==> priority == "High Priority"
    ensures p == MEDIUM <==> priority == "Medium Priority"
    ensures p == LOW <==> priority != "High Priority" && priority != "Medium Priority"
  {
    if priority == "High Priority" then HIGH
    else if priority == "Medium Priority" then MEDIUM
    else if priority == "Low Priority" then LOW
    else LOW
  }

  /** The label the form offers for each priority: the string the parser
      maps back to that priority. */
  function PriorityLabel(p: Priority): (s: string)
    ensures ParsePriority(s) == p
  {
    match p
    case HIGH => "High Priority"
    case MEDIUM => "Medium Priority"
    case LOW => "Low Priority"
  }

  /** Distinct priorities have distinct labels. */
  lemma PriorityLabelInjective(p: Priority, q: Priority)
    ensures PriorityLabel(p) == PriorityLabel(q) <==> p == q
  {
  }

  /** A recognised label is the label of the priority it parses to; any string
      that is not one of the three labels parses to LOW. */
  lemma ParsePriorityRecognised(priority: string)
    ensures (exists p :: PriorityLabel(p) == priority) ==> PriorityLabel(ParsePriority(priority)) == priority
    ensures (forall p :: PriorityLabel(p) != priority) ==> ParsePriority(priority) == LOW
  {
    if forall p :: PriorityLabel(p) != priority {
      assert PriorityLabel(HIGH) != priority && PriorityLabel(MEDIUM) != priority;
    }
  }

  /** Case variants and the empty string are not labels: they fall back to LOW. */
  lemma ParsePriorityFallback()
    ensures ParsePriority("high priority") == LOW
    ensures ParsePriority("medium priority") == LOW
    ensures ParsePriority("HIGH PRIORITY") == LOW
    ensures ParsePriority("High") == LOW
    ensures ParsePriority("") == LOW
  {
  }

  // ---------------------------------------------------------------------------
  // List screen: the "database is empty" flag
  // ---------------------------------------------------------------------------

  /** One call of checkIfDatabaseEmpty: the flag is overwritten with whether the
      list it is given is empty; its previous value plays no part. */
  function Step<T>(emptyDatabase: bool, toDoData: seq<T>): (flag: bool)
    ensures flag <==> toDoData == []
  {
    |toDoData| == 0
  }

  /** The flag after the calls that passed the lists of `calls`, in order,
      starting from `emptyDatabase`. */
  function Replay<T>(emptyDatabase: bool, calls: seq<seq<T>>): (flag: bool)
    ensures calls == [] ==> flag == emptyDatabase
    decreases |calls|
  {
    if calls == [] then emptyDatabase
    else Replay(Step(emptyDatabase, calls[0]), calls[1..])
  }

  /** After at least one call the flag says whether the last list was empty. */
  lemma {:induction false} ReplayLastWins<T>(emptyDatabase: bool, calls: seq<seq<T>>)
    requires calls != []
    ensures Replay(emptyDatabase, calls) <==> calls[|calls| - 1] == []
    decreases |calls|
  {
    if |calls| > 1 {
      ReplayLastWins(Step(emptyDatabase, calls[0]), calls[1..]);
    }
  }

  /** Calls compose: replaying `first + rest` is replaying `rest` from the flag
      that `first` left. */
  lemma {:induction false} ReplayAppend<T>(emptyDatabase: bool, first: seq<seq<T>>, rest: seq<seq<T>>)
    ensures Replay(emptyDatabase, first + rest) == Replay(Replay(emptyDatabase, first), rest)
    decreases |first|
  {
    if first == [] {
      assert first + rest == rest;
    } else {
      assert (first + rest)[0] == first[0];
      assert (first + rest)[1..] == first[1..] + rest;
      ReplayAppend(Step(emptyDatabase, first[0]), first[1..], rest);
    }
  }

  /** From the initial `false`, the flag is true exactly when some call was made
      and the last one passed an empty list. */
  lemma {:induction false} EmptyDatabaseMeaning<T>(calls: seq<seq<T>>)
    ensures Replay(false, calls) <==> calls != [] && calls[|calls| - 1] == []
  {
    if calls != [] {
      ReplayLastWins(false, calls);
    }
  }

  /** Passing the same list twice in a row leaves the flag as passing it once. */
  lemma CheckTwiceIsCheckOnce<T>(emptyDatabase: bool, calls: seq<seq<T>>, toDoData: seq<T>)
    ensures Replay(emptyDatabase, calls + [toDoData, toDoData]) == Replay(emptyDatabase, calls + [toDoData])
  {
    ReplayLastWins(emptyDatabase, calls + [toDoData, toDoData]);
    ReplayLastWins(emptyDatabase, calls + [toDoData]);
  }

  /** The view model. `T` stands for the to-do item record, whose fields play
      no part here. The observable `emptyDatabase` is a plain field; `checked`
      records the lists passed to CheckIfDatabaseEmpty so far. */
  class SharedViewModel<T> {
    var emptyDatabase: bool
    ghost var checked: seq<seq<T>>

    ghost predicate Valid()
      reads this
    {
      emptyDatabase == Replay(false, checked)
    }

    /** The flag starts out false, before any list has been checked. */
    constructor ()
      ensures Valid()
      ensures checked == []
      ensures !emptyDatabase
    {
      emptyDatabase := false;
      checked := [];
    }

    /** Overwrites the flag with whether `toDoData` is empty. */
    method CheckIfDatabaseEmpty(toDoData: seq<T>)
      requires Valid()
      modifies this
      ensures Valid()
      ensures checked == old(checked) + [toDoData]
      ensures emptyDatabase == Step(old(emptyDatabase), toDoData)
      ensures emptyDatabase <==> toDoData == []
    {
      emptyDatabase := Step(emptyDatabase, toDoData);
      checked := checked + [toDoData];
      EmptyDatabaseMeaning(checked);
    }
  }
}
