/** The scheduling form: client name, date, time and notes for one activity.
    Submitting either sets the error message or emits a new appointment. */
module ScheduleModal {
  import opened Common
  import opened Types

  const MsgMissingFields: string := "Please fill in the client name, date, and time."

  /** The form's three required fields; notes may be empty. */
  predicate Complete(clientName: string, date: string, time: string) {
    clientName != "" && date != "" && time != ""
  }

  /** What a submit hands to the application: nothing when a required field is empty,
      otherwise an appointment carrying exactly the entered values.  `id` stands for the
      `<timestamp>-<random>` text the form builds. */
  function SubmitOutcome(clientName: string, date: string, time: string, notes: string,
                         activity: Activity, id: string): (r: Option<Appointment>)
    ensures r.None? <==> clientName == "" || date == "" || time == ""
    ensures r.Some? ==>
              r.value.clientName == clientName && r.value.date == date && r.value.time == time &&
              r.value.notes == notes && r.value.activity == activity && r.value.id == id
  {
    if Complete(clientName, date, time) then
      Some(Appointment(id, date, time, activity, clientName, notes))
    else None
  }

  /** Empty notes never stop an appointment. */
  lemma EmptyNotesAllowed(clientName: string, date: string, time: string, activity: Activity, id: string)
    requires clientName != "" && date != "" && time != ""
    ensures SubmitOutcome(clientName, date, time, "", activity, id).Some?
    ensures SubmitOutcome(clientName, date, time, "", activity, id).value.notes == ""
  {
  }

  class ScheduleForm {
    var clientName: string
    var date: string
    var time: string
    var notes: string
    var error: string

    constructor ()
      ensures clientName == "" && date == "" && time == "" && notes == "" && error == ""
    {
      clientName, date, time, notes, error := "", "", "", "", "";
    }

    method ClientNameChange(value: string)
      modifies this
      ensures clientName == value
      ensures date == old(date) && time == old(time) && notes == old(notes) && error == old(error)
    {
      clientName := value;
    }

    method DateChange(value: string)
      modifies this
      ensures date == value
      ensures clientName == old(clientName) && time == old(time) && notes == old(notes) && error == old(error)
    {
      date := value;
    }

    method TimeChange(value: string)
      modifies this
      ensures time == value
      ensures clientName == old(clientName) && date == old(date) && notes == old(notes) && error == old(error)
    {
      time := value;
    }

    method NotesChange(value: string)
      modifies this
      ensures notes == value
      ensures clientName == old(clientName) && date == old(date) && time == old(time) && error == old(error)
    {
      notes := value;
    }

    /** The submit handler.  The emitted appointment is the one `SubmitOutcome` gives; the
        error is set exactly when nothing is emitted, and the entered fields are kept. */
    method Submit(activity: Activity, id: string) returns (emitted: Option<Appointment>)
      modifies this
      ensures emitted == SubmitOutcome(old(clientName), old(date), old(time), old(notes), activity, id)
      ensures error == if emitted.None? then MsgMissingFields else ""
      ensures clientName == old(clientName) && date == old(date) && time == old(time) && notes == old(notes)
    {
      if clientName == "" || date == "" || time == "" {
        error := MsgMissingFields;
        return None;
      }
      error := "";
      emitted := Some(Appointment(id, date, time, activity, clientName, notes));
    }
  }
}
