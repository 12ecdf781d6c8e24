/** The custom-code modal
    (packages/electron-app/src/ui/components/modals/page/customCodeModal.tsx):
    the path prefix helper, the list of code templates the modal keeps with
    the selected template, and saving the edited code into a recorded step.

    The editor's text is a field (`editorCode`); the backend calls that save,
    update or delete a template are not part of this model, only their
    effect on the local list. */
module CustomCode {
  import opened Wrappers
  import opened Seqs
  import opened Actions

  /** `ensureFirstBackSlash`: prefixes "/" to a non-empty string that does
      not already start with one. */
  function EnsureFirstBackSlash(str: string): (r: string)
    ensures |r| == 0 <==> |str| == 0
    ensures |str| > 0 ==> r[0] == '/'
    ensures |str| <= |r| <= |str| + 1 && r[|r| - |str|..] == str
    ensures |str| > 0 && str[0] == '/' ==> r == str
  {
    if |str| > 0 && str[0] != '/' then "/" + str else str
  }

  lemma EnsureFirstBackSlashIdempotent(str: string)
    ensures EnsureFirstBackSlash(EnsureFirstBackSlash(str)) == EnsureFirstBackSlash(str)
  {
  }

  type TemplateId = int

  /** A saved code template as the modal keeps it. */
  datatype Template = Template(id: TemplateId, code: string, name: string)

  /** What is sent to the backend to save a new template. */
  datatype TemplateDraft = TemplateDraft(name: string, code: string)

  datatype SavingState = AwaitingInput | Saved

  /** `if (selectedTemplate)`: a template is selected and its id is not 0. */
  predicate Attached(selected: Option<TemplateId>) {
    selected.Some? && selected.value != 0
  }

  /** The list without the templates that carry `id`, in the original order. */
  function WithoutTemplate(templates: seq<Template>, id: TemplateId): (r: seq<Template>)
    ensures forall i :: 0 <= i < |r| ==> r[i] in templates && r[i].id != id
    ensures forall i :: 0 <= i < |templates| && templates[i].id != id ==> templates[i] in r
  {
    Filter(templates, (t: Template) => t.id != id)
  }

  /** Deleting keeps the remaining templates in their order: removing from a
      concatenation is removing from each part. */
  lemma WithoutTemplateKeepsOrder(a: seq<Template>, b: seq<Template>, id: TemplateId)
    ensures WithoutTemplate(a + b, id) == WithoutTemplate(a, id) + WithoutTemplate(b, id)
  {
    FilterAppend(a, b, (t: Template) => t.id != id);
  }

  /** Deleting an id no template carries leaves the list as it is. */
  lemma WithoutAbsentTemplate(templates: seq<Template>, id: TemplateId)
    requires forall i :: 0 <= i < |templates| ==> templates[i].id != id
    ensures WithoutTemplate(templates, id) == templates
  {
    FilterAll(templates, (t: Template) => t.id != id);
  }

  /** The position of the first template with `id` (`codeTemplates.find`). */
  function FindTemplate(templates: seq<Template>, id: TemplateId): (r: Option<nat>)
    ensures r.Some? ==> r.value < |templates| && templates[r.value].id == id
    ensures r.Some? ==> forall j :: 0 <= j < r.value ==> templates[j].id != id
    ensures r.None? <==> forall j :: 0 <= j < |templates| ==> templates[j].id != id
  {
    FirstIndex(templates, (t: Template) => t.id == id)
  }

  /** The `templateId` meta value for a selection: the id or `null`. */
  function SelectionMeta(selected: Option<TemplateId>): MetaValue {
    if selected.Some? then Num(selected.value) else Null
  }

  const InitialCodeTemplate: string :=
    "/* Write your custom code here. For more infromation\ncheckout SDK docs here at, https://docs.crusher.dev/sdk */\nasync function validate() {\n\n}"

  /** The modal's state: the templates list, the selected template id, the
      editor's text and the template-naming flags. */
  class CodeModal {
    var templates: seq<Template>
    var selected: Option<TemplateId>
    var editorCode: string
    var needName: bool
    var savingState: SavingState

    constructor ()
      ensures templates == [] && selected == None && editorCode == InitialCodeTemplate
      ensures !needName && savingState == AwaitingInput
    {
      templates := [];
      selected := None;
      editorCode := InitialCodeTemplate;
      needName := false;
      savingState := AwaitingInput;
    }

    /** Opening the modal resets the selection and flags, loads the
        templates the backend returns and mounts a fresh editor showing the
        initial code template (the closed modal renders nothing, so the
        editor's earlier text is gone). */
    method Open(loaded: seq<Template>)
      modifies this
      ensures templates == loaded && selected == None
      ensures !needName && savingState == AwaitingInput && editorCode == InitialCodeTemplate
    {
      templates := loaded;
      selected := None;
      savingState := AwaitingInput;
      needName := false;
      editorCode := InitialCodeTemplate;
    }

    /** The user edits the code in the editor. */
    method EditCode(code: string)
      modifies this`editorCode
      ensures editorCode == code
    {
      editorCode := code;
    }

    /** "Save new template" asks for a name. */
    method SaveAsTemplate()
      modifies this`needName
      ensures needName
    {
      needName := true;
    }

    /** `handleCreateTemplate`: a missing or empty name is rejected and
        nothing changes. Otherwise the name and the editor's code are sent;
        if the backend answers with the saved template it is appended and
        selected, and if the request fails nothing changes. */
    method CreateTemplate(name: Option<string>, response: Option<Template>) returns (request: Option<TemplateDraft>)
      modifies this
      ensures request.Some? <==> name.Some? && name.value != ""
      ensures request.Some? ==> request.value == TemplateDraft(name.value, old(editorCode))
      ensures request.Some? && response.Some? ==>
                templates == old(templates) + [response.value] && selected == Some(response.value.id)
                && !needName && savingState == Saved && editorCode == old(editorCode)
      ensures request.None? || response.None? ==>
                templates == old(templates) && selected == old(selected) && needName == old(needName)
                && savingState == old(savingState) && editorCode == old(editorCode)
    {
      if name.None? || name.value == "" {
        return None;
      }
      request := Some(TemplateDraft(name.value, editorCode));
      if response.Some? {
        templates := templates + [response.value];
        selected := Some(response.value.id);
        needName := false;
        savingState := Saved;
      }
    }

    /** `handleUpdateTemplate`: the first template with the selected id gets
        the editor's code; nothing else changes. Without a selection, or when
        no template carries the id (the source then fails before updating),
        nothing changes. */
    method UpdateTemplate() returns (request: Option<Template>)
      modifies this`templates
      ensures Attached(selected) && FindTemplate(old(templates), selected.value).Some? ==>
                var k := FindTemplate(old(templates), selected.value).value;
                && request == Some(Template(selected.value, editorCode, old(templates)[k].name))
                && |templates| == |old(templates)|
                && templates[k] == old(templates)[k].(code := editorCode)
                && forall j :: 0 <= j < |templates| && j != k ==> templates[j] == old(templates)[j]
      ensures !(Attached(selected) && FindTemplate(old(templates), selected.value).Some?) ==>
                request.None? && templates == old(templates)
    {
      request := None;
      if Attached(selected) {
        var found := FindTemplate(templates, selected.value);
        if found.Some? {
          var k := found.value;
          request := Some(Template(selected.value, editorCode, templates[k].name));
          templates := templates[k := templates[k].(code := editorCode)];
        }
      }
    }

    /** `handleDetach`: clears the selection when there is one. */
    method Detach()
      modifies this`selected
      ensures selected == if Attached(old(selected)) then None else old(selected)
    {
      if Attached(selected) {
        selected := None;
      }
    }

    /** `handleDeleteTemplate`: removes every template with the selected id,
        keeps the others in order and clears the selection; does nothing
        without a selection. */
    method DeleteTemplate()
      modifies this`templates, this`selected
      ensures Attached(old(selected)) ==>
                templates == WithoutTemplate(old(templates), old(selected).value) && selected == None
      ensures !Attached(old(selected)) ==> templates == old(templates) && selected == old(selected)
    {
      if Attached(selected) {
        templates := WithoutTemplate(templates, selected.value);
        selected := None;
      }
    }

    /** Choosing a template in the select box selects it and loads its code
        into the editor. */
    method SelectTemplate(value: TemplateId)
      modifies this`selected, this`editorCode
      ensures selected == Some(value)
      ensures FindTemplate(templates, value).Some? ==> editorCode == templates[FindTemplate(templates, value).value].code
      ensures FindTemplate(templates, value).None? ==> editorCode == old(editorCode)
    {
      selected := Some(value);
      var found := FindTemplate(templates, value);
      if found.Some? {
        editorCode := templates[found.value].code;
      }
    }

    /** `updateCustomCode`: an edited step gets the editor's code as
        `meta.script` and the selection as `meta.templateId`; everything else
        in the action is kept. Without a step nothing is dispatched. */
    method UpdateCustomCode(step: Option<Action>) returns (dispatched: Option<Action>)
      ensures dispatched.Some? <==> step.Some?
      ensures step.Some? ==>
                && dispatched.value.actionType == step.value.actionType
                && dispatched.value.selector == step.value.selector
                && MetaField(dispatched.value, "script") == Some(Str(editorCode))
                && MetaField(dispatched.value, "templateId") == Some(SelectionMeta(selected))
                && forall key :: key != "script" && key != "templateId" ==>
                     MetaField(dispatched.value, key) == MetaField(step.value, key)
    {
      if step.None? {
        return None;
      }
      var action := step.value;
      var meta := action.meta["script" := Str(editorCode)];
      meta := meta["templateId" := SelectionMeta(selected)];
      dispatched := Some(action.(meta := meta));
    }
  }
}
