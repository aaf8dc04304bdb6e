/** `EventManager` (src/components/EventManager.tsx): which of the event table and the
    event editor is on screen, driven by two state fields. */
module EventManager {
  import opened Wrappers
  import opened Types

  /** The editor for the given event (none when creating), or the table. */
  datatype View = Detail(event: Option<Event>, isCreating: bool) | Table

  class EventManager {
    var selectedEvent: Option<Event>
    var isCreating: bool

    /** Never an event selected while creating: every handler leaves at most one of them set. */
    predicate Valid()
      reads this
    {
      !(selectedEvent.Some? && isCreating)
    }

    /** The table first. */
    constructor ()
      ensures selectedEvent.None? && !isCreating && Valid()
    {
      selectedEvent, isCreating := None, false;
    }

    /** `handleEventSelect`: edit the chosen event. */
    method HandleEventSelect(event: Event)
      modifies this
      ensures selectedEvent == Some(event) && !isCreating && Valid()
    {
      selectedEvent, isCreating := Some(event), false;
    }

    /** `handleCreateNew`: an empty editor. */
    method HandleCreateNew()
      modifies this
      ensures selectedEvent.None? && isCreating && Valid()
    {
      selectedEvent, isCreating := None, true;
    }

    /** `handleBack`: back to the table. */
    method HandleBack()
      modifies this
      ensures selectedEvent.None? && !isCreating && Valid()
      ensures Render() == Table
    {
      selectedEvent, isCreating := None, false;
    }

    /** `handleSave`: the saved event stays open, now being edited rather than created. */
    method HandleSave(event: Event)
      modifies this
      ensures selectedEvent == Some(event) && !isCreating && Valid()
      ensures Render() == Detail(Some(event), false)
    {
      selectedEvent, isCreating := Some(event), false;
    }

    /** The editor is shown exactly when an event is selected or one is being created, and
        it gets the selected event and the mode; otherwise the table is shown. In a valid
        state the editor edits exactly when an event is selected. */
    function Render(): (v: View)
      reads this
      ensures v.Detail? <==> selectedEvent.Some? || isCreating
      ensures v.Detail? ==> v.event == selectedEvent && v.isCreating == isCreating
      ensures Valid() && v.Detail? ==> (v.event.Some? <==> !v.isCreating)
    {
      if selectedEvent.Some? || isCreating then Detail(selectedEvent, isCreating) else Table
    }
  }
}
