/** The form component's state cell: one record, replaced wholesale by every handler. */
module FormComponent {
  import opened Options
  import opened Keys
  import opened FormRecord
  import opened ItineraryEditor

  class Form {
    /** The `formData` state of the component. */
    var formData: FormData

    /** The list of days is present and numbered 1..n; every handler keeps this. */
    ghost predicate Valid()
      reads this
    {
      WellFormed(formData)
    }

    /** The component mounts with the empty record. */
    constructor ()
      ensures Valid()
      ensures formData == InitialState()
    {
      formData := InitialState();
    }

    /** A text input on a top-level field. */
    method HandleChange(name: string, value: string)
      requires Valid()
      requires ParseTopField(name).Some?
      modifies this
      ensures Valid()
      ensures formData == FormRecord.HandleChange(old(formData), name, value)
    {
      formData := FormRecord.HandleChange(formData, name, value);
    }

    /** The product type selector; it patches the record exactly as a text input does. */
    method HandleSelectChange(name: string, value: string)
      requires Valid()
      requires ParseTopField(name).Some?
      modifies this
      ensures Valid()
      ensures formData == FormRecord.HandleChange(old(formData), name, value)
    {
      formData := FormRecord.HandleChange(formData, name, value);
    }

    /** Reset installs the empty record whatever the state was, so the component is back
        in its initial state and a second reset changes nothing. */
    method HandleReset()
      modifies this
      ensures Valid()
      ensures formData == ResetState() == InitialState()
      ensures IsEmptyRecord(formData)
    {
      ResetIsInitial();
      formData := ResetState();
    }

    /** Fill installs the demonstration record whatever the state was. */
    method HandleFillForm()
      modifies this
      ensures Valid()
      ensures formData == DemoState()
    {
      formData := DemoState();
    }

    /** Appends day n+1 with empty icon, image and content. */
    method AddItinerary()
      requires Valid()
      modifies this
      ensures Valid()
      ensures formData == ItineraryEditor.AddItinerary(old(formData))
      ensures Items(formData) == Items(old(formData)) + [NewDay(|Items(old(formData))| + 1)]
    {
      formData := ItineraryEditor.AddItinerary(formData);
    }

    /** Removes `day` and renumbers; for a day outside 1..n the record does not change. */
    method RemoveItinerary(day: int)
      requires Valid()
      modifies this
      ensures Valid()
      ensures formData == ItineraryEditor.RemoveItinerary(old(formData), day)
      ensures 1 <= day <= |Items(old(formData))| ==> |Items(formData)| == |Items(old(formData))| - 1
      ensures !(1 <= day <= |Items(old(formData))|) ==> formData == old(formData)
    {
      var s := Items(formData);
      if 1 <= day <= |s| {
        RemoveInRange(s, day);
      } else {
        RemoveOutOfRange(s, day);
      }
      formData := ItineraryEditor.RemoveItinerary(formData, day);
    }

    /** An icon, image or content input of one day, named `"<field>-<day>"`. */
    method HandleItineraryChange(name: string, value: string)
      requires Valid()
      requires ItemFieldOf(name).Some?
      modifies this
      ensures Valid()
      ensures formData == ChangeItineraryItem(old(formData), name, value)
      ensures |Items(formData)| == |Items(old(formData))|
    {
      formData := ChangeItineraryItem(formData, name, value);
    }

    /** The itinerary summary or image input, named `"productItinerary-<field>"`. */
    method HandleProductItineraryChange(name: string, value: string)
      requires Valid()
      requires ItineraryFieldOf(name).Some?
      modifies this
      ensures Valid()
      ensures formData == ChangeProductItinerary(old(formData), name, value)
      ensures Items(formData) == Items(old(formData))
    {
      formData := ChangeProductItinerary(formData, name, value);
    }
  }
}
