/** The state of the HabitBuilder component, its three list handlers and
    the three plain setters wired into its view. Each list handler assigns
    the result of a pure list transformation from HabitList; the setters
    assign one field. React schedules each update for the next render; the
    model assigns at once. */
module HabitComponent {
  import opened JsString
  import opened HabitList

  class HabitBuilder {
    /** The habits shown on screen, in display order. */
    var habitList: seq<Habit>
    /** The contents of the "Enter new habit here" input. */
    var text: string
    /** Whether the "Add Habit" dialog is open. */
    var showConfirmation: bool

    /** The state a freshly mounted component starts from, before any
        stored habits are loaded. */
    constructor ()
      ensures habitList == [] && text == "" && !showConfirmation
    {
      habitList := [];
      text := "";
      showConfirmation := false;
    }

    /** addHandler: a blank input changes nothing; otherwise the input, as
        typed and untrimmed, becomes a new uncompleted habit at the end of
        the list, and the input is cleared and the dialog closed. */
    method AddHandler()
      modifies this
      ensures IsBlank(old(text)) ==>
        habitList == old(habitList) && text == old(text) && showConfirmation == old(showConfirmation)
      ensures !IsBlank(old(text)) ==>
        && |habitList| == |old(habitList)| + 1
        && habitList[..|old(habitList)|] == old(habitList)
        && habitList[|old(habitList)|] == Habit(old(text), false)
        && text == ""
        && !showConfirmation
    {
      TrimEmptyIffBlank(text);
      if Trim(text) != "" {
        habitList := Added(habitList, text);
        text := "";
        showConfirmation := false;
      }
    }

    /** The input's `onChangeText`: the typed text replaces `text`. */
    method SetText(t: string)
      modifies this`text
      ensures text == t
    {
      text := t;
    }

    /** The "Add a habit" button: opens the dialog. */
    method OpenDialog()
      modifies this`showConfirmation
      ensures showConfirmation
    {
      showConfirmation := true;
    }

    /** The dialog's Cancel button and its request to close: closes the
        dialog and keeps the typed text. */
    method CloseDialog()
      modifies this`showConfirmation
      ensures !showConfirmation
    {
      showConfirmation := false;
    }

    /** removeHandler: every habit named `habitToRemove` goes, every other
        habit stays in its order; the input and the dialog are untouched. */
    method RemoveHandler(habitToRemove: string)
      modifies this`habitList
      ensures habitList == Removed(old(habitList), habitToRemove)
      ensures |habitList| == |old(habitList)| - CountNamed(old(habitList), habitToRemove)
      ensures habitToRemove !in Names(habitList)
      ensures habitToRemove !in Names(old(habitList)) ==> habitList == old(habitList)
    {
      RemovedLength(habitList, habitToRemove);
      RemovedAbsent(Removed(habitList, habitToRemove), habitToRemove);
      if habitToRemove !in Names(habitList) {
        RemovedAbsent(habitList, habitToRemove);
      }
      habitList := Removed(habitList, habitToRemove);
    }

    /** toggleCompletion: every habit named `habitName` has its flag
        negated, every other habit is unchanged, and the list keeps its
        length, order and names. */
    method ToggleCompletion(habitName: string)
      modifies this`habitList
      ensures |habitList| == |old(habitList)|
      ensures forall i :: 0 <= i < |habitList| ==>
        habitList[i] == if old(habitList)[i].name == habitName
                        then Habit(habitName, !old(habitList)[i].completed)
                        else old(habitList)[i]
      ensures habitName !in Names(old(habitList)) ==> habitList == old(habitList)
    {
      if habitName !in Names(habitList) {
        ToggledAbsent(habitList, habitName);
      }
      habitList := Toggled(habitList, habitName);
    }
  }
}
