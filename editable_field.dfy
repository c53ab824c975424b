/**
  The `EditableField` component of components/editable-field.tsx: a text
  shown as it is until its edit button is clicked, then an input whose
  draft is saved through `onSave` or discarded.

  The props `value`, `placeholder` and `showEditIcon` and the two state
  cells `isEditing` and `editValue` are fields. Every call of `onSave` is
  recorded, in order, in `saved`.
*/
module EditableFieldModel {
  import opened Wrappers

  /** The text shown outside editing mode: `value || placeholder`; nothing when both are missing. */
  function DisplayText(value: string, placeholder: Option<string>): (r: Option<string>)
    ensures value != "" ==> r == Some(value)
    ensures value == "" ==> r == placeholder
  {
    if value != "" then Some(value) else placeholder
  }

  class EditableField {
    var value: string
    var placeholder: Option<string>
    var showEditIcon: bool
    var isEditing: bool
    var editValue: string
    var saved: seq<string>

    /** Mounting: not editing, the draft is the value, and `showEditIcon` defaults to true. */
    constructor (value: string, placeholder: Option<string>, showEditIcon: Option<bool>)
      ensures this.value == value && this.placeholder == placeholder
      ensures this.showEditIcon == showEditIcon.GetOr(true)
      ensures !isEditing && editValue == value && saved == []
    {
      this.value := value;
      this.placeholder := placeholder;
      this.showEditIcon := showEditIcon.GetOr(true);
      isEditing := false;
      editValue := value;
      saved := [];
    }

    /** What the field shows when it is not being edited. */
    function Display(): (r: Option<string>)
      reads this
      ensures value != "" ==> r == Some(value)
      ensures value == "" ==> r == placeholder
    {
      DisplayText(value, placeholder)
    }

    /** The edit button is rendered exactly when not editing and `showEditIcon` is set. */
    function EditButtonShown(): (r: bool)
      reads this
      ensures r <==> !isEditing && showEditIcon
    {
      !isEditing && showEditIcon
    }

    /** The edit click: enters editing mode and keeps whatever draft there was. */
    method StartEdit()
      modifies this
      ensures isEditing
      ensures editValue == old(editValue) && saved == old(saved)
      ensures value == old(value) && placeholder == old(placeholder) && showEditIcon == old(showEditIcon)
    {
      isEditing := true;
    }

    /** Typing into the input: only the draft changes. */
    method Change(text: string)
      modifies this
      ensures editValue == text
      ensures isEditing == old(isEditing) && saved == old(saved)
      ensures value == old(value) && placeholder == old(placeholder) && showEditIcon == old(showEditIcon)
    {
      editValue := text;
    }

    /** `handleSave`: one `onSave` call with the current draft, then editing mode ends. */
    method Save()
      modifies this
      ensures saved == old(saved) + [old(editValue)]
      ensures !isEditing && editValue == old(editValue)
      ensures value == old(value) && placeholder == old(placeholder) && showEditIcon == old(showEditIcon)
    {
      saved := saved + [editValue];
      isEditing := false;
    }

    /** `handleCancel`: the draft goes back to the value, editing mode ends and nothing is saved. */
    method Cancel()
      modifies this
      ensures editValue == value && !isEditing
      ensures saved == old(saved)
      ensures value == old(value) && placeholder == old(placeholder) && showEditIcon == old(showEditIcon)
    {
      editValue := value;
      isEditing := false;
    }

    /**
      A new `value` prop from the parent. The state cells were initialised
      once, so the draft keeps its old text until the next cancel.
    */
    method SetValue(v: string)
      modifies this
      ensures value == v
      ensures editValue == old(editValue) && isEditing == old(isEditing) && saved == old(saved)
      ensures placeholder == old(placeholder) && showEditIcon == old(showEditIcon)
    {
      value := v;
    }
  }

  /** Edit, type, cancel, then edit and save: the typed text is discarded and the value is saved. */
  method CancelDiscardsDraft(value: string, typed: string) returns (saved: seq<string>)
    ensures saved == [value]
  {
    var f := new EditableField(value, None, None);
    f.StartEdit();
    f.Change(typed);
    f.Cancel();
    f.StartEdit();
    f.Save();
    saved := f.saved;
  }

  /** Edit, type, save: `onSave` is called once, with the typed text. */
  method SaveSendsDraft(value: string, typed: string) returns (saved: seq<string>, editing: bool)
    ensures saved == [typed] && !editing
  {
    var f := new EditableField(value, None, None);
    f.StartEdit();
    f.Change(typed);
    f.Save();
    saved, editing := f.saved, f.isEditing;
  }
}
