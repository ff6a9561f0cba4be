/**
 * The zone-areas settings screen: which area is being edited, whether the
 * form is open, the list of areas, and the toasts raised when the form
 * reports success and the list is fetched again.
 */
module ZoneAreas {
  import opened Common

  datatype ZoneArea = ZoneArea(id: string, name: string)

  /** A toast raised by the screen; the success toast says "update" or "create". */
  datatype Toast = SuccessToast(isUpdate: bool) | RefreshErrorToast

  /** What the re-fetch `getZoneAreas()` produced. */
  datatype FetchOutcome = Fetched(areas: seq<ZoneArea>) | FetchThrew

  class ZoneAreasEditor {
    var editing: Option<ZoneArea>
    var showForm: bool
    var zoneAreas: seq<ZoneArea>
    var toasts: seq<Toast>

    constructor (initialZoneAreas: seq<ZoneArea>)
      ensures zoneAreas == initialZoneAreas
      ensures editing == None && !showForm && toasts == []
    {
      editing := None;
      showForm := false;
      zoneAreas := initialZoneAreas;
      toasts := [];
    }

    /** `handleEdit`: open the form on the chosen area. */
    method HandleEdit(zoneArea: ZoneArea)
      modifies this
      ensures editing == Some(zoneArea) && showForm
      ensures zoneAreas == old(zoneAreas) && toasts == old(toasts)
    {
      editing := Some(zoneArea);
      showForm := true;
    }

    /** `handleCancel`: close the form and forget the edited area. */
    method HandleCancel()
      modifies this
      ensures editing == None && !showForm
      ensures zoneAreas == old(zoneAreas) && toasts == old(toasts)
    {
      editing := None;
      showForm := false;
    }

    /** The add button: open the form without an edited area. */
    method OpenAddForm()
      modifies this
      ensures showForm
      ensures editing == old(editing) && zoneAreas == old(zoneAreas) && toasts == old(toasts)
    {
      showForm := true;
    }

    /**
     * `handleFormSuccess`: close the form, then re-fetch. The success toast
     * reads the edited area as it was when the handler was invoked.
     */
    method HandleFormSuccess(outcome: FetchOutcome)
      modifies this
      ensures editing == None && !showForm
      ensures outcome.Fetched? ==> zoneAreas == outcome.areas
      ensures outcome.Fetched? ==> toasts == old(toasts) + [SuccessToast(old(editing).Some?)]
      ensures outcome.FetchThrew? ==> zoneAreas == old(zoneAreas)
      ensures outcome.FetchThrew? ==> toasts == old(toasts) + [RefreshErrorToast]
    {
      var wasEditing := editing.Some?;
      editing := None;
      showForm := false;
      match outcome {
        case Fetched(areas) =>
          zoneAreas := areas;
          toasts := toasts + [SuccessToast(wasEditing)];
        case FetchThrew =>
          toasts := toasts + [RefreshErrorToast];
      }
    }
  }

  datatype FormHeader = UpdateHeader | CreateHeader

  /** What the screen shows for a given state. */
  datatype ScreenView = ScreenView(addButton: bool, form: Option<FormHeader>, count: nat, emptyState: bool)

  function Screen(editing: Option<ZoneArea>, showForm: bool, zoneAreas: seq<ZoneArea>): (v: ScreenView)
    ensures v.addButton <==> !showForm
    ensures v.form.Some? <==> showForm
    ensures v.form.Some? ==> (v.form.value == UpdateHeader <==> editing.Some?)
    ensures v.count == |zoneAreas|
    ensures v.emptyState <==> zoneAreas == []
  {
    ScreenView(
      !showForm,
      if showForm then Some(if editing.Some? then UpdateHeader else CreateHeader) else None,
      |zoneAreas|,
      |zoneAreas| == 0)
  }

  /** Editing an area and then saving it raises the "update" toast and closes the form. */
  method EditThenSave(initial: seq<ZoneArea>, zoneArea: ZoneArea, fetched: seq<ZoneArea>)
    returns (toasts: seq<Toast>, view: ScreenView)
    ensures toasts == [SuccessToast(true)]
    ensures view.addButton && view.form.None? && view.count == |fetched|
  {
    var editor := new ZoneAreasEditor(initial);
    editor.HandleEdit(zoneArea);
    editor.HandleFormSuccess(Fetched(fetched));
    toasts := editor.toasts;
    view := Screen(editor.editing, editor.showForm, editor.zoneAreas);
  }
}
