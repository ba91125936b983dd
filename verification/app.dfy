/** The application shell: two pieces of state, the record being edited and
    the id of the chosen template, each overwritten wholesale by its setter.
    The editor hands every new record to the record's setter, the picker
    hands every clicked id to the template's setter, and the preview and
    the download both read the two. */
module AppState {
  import opened Resume
  import opened Form
  import Preview
  import Selector
  import Download

  class App {
    var resumeData: ResumeData
    var selectedTemplate: string

    /** What every session keeps of its record: ids distinct within each
        section, and the optional fields present. */
    predicate Valid()
      reads this
    {
      DistinctAll(resumeData) && OptionalsSet(resumeData)
    }

    /** A session starts from the empty record with Classic selected. */
    constructor ()
      ensures resumeData == InitialData()
      ensures selectedTemplate == "classic"
      ensures Valid()
    {
      resumeData := InitialData();
      selectedTemplate := "classic";
      InitialInvariants();
    }

    /** `setResumeData`: replaces the whole record; the template id stays. */
    method SetResumeData(d: ResumeData)
      modifies this
      ensures resumeData == d
      ensures selectedTemplate == old(selectedTemplate)
    {
      resumeData := d;
    }

    /** `setSelectedTemplate`: replaces the template id; the record stays. */
    method SetSelectedTemplate(id: string)
      modifies this
      ensures selectedTemplate == id
      ensures resumeData == old(resumeData)
    {
      selectedTemplate := id;
    }

    /** The editor's `onChange`: one event, its new record handed to the
        record's setter. An add with a fresh id, and every other event,
        keeps the session's invariants. */
    method Edit(a: Action)
      requires WellTyped(a)
      modifies this
      ensures resumeData == Apply(old(resumeData), a)
      ensures selectedTemplate == old(selectedTemplate)
      ensures old(Valid()) && FreshAdd(old(resumeData), a) ==> Valid()
    {
      if Valid() && FreshAdd(resumeData, a) {
        ApplyKeepsDistinct(resumeData, a);
        ApplyKeepsOptionals(resumeData, a);
      }
      SetResumeData(Apply(resumeData, a));
    }

    /** The picker's `onTemplateChange`: a click on button `i` selects that
        button's template, which is then the one highlighted, and the
        preview switches to it. */
    method ClickTemplate(i: nat)
      requires i < |Selector.Templates|
      modifies this
      ensures selectedTemplate == Selector.Templates[i].id
      ensures resumeData == old(resumeData)
      ensures Selector.Buttons(selectedTemplate)[i].variant == Selector.Highlighted
      ensures Preview.IdOf(Preview.Resolve(selectedTemplate)) == selectedTemplate
    {
      Selector.ClickHighlights(selectedTemplate, i);
      Selector.ListedIdsResolve();
      SetSelectedTemplate(Selector.Click(selectedTemplate, i));
    }

    /** The preview pane for the current state. */
    function Pane(fmt: string -> string): (c: Preview.Container)
      reads this
      ensures c.id == Preview.ContainerId
      ensures c.page == Preview.RenderAs(Preview.Resolve(selectedTemplate), fmt, resumeData)
    {
      Preview.PreviewPane(fmt, resumeData, selectedTemplate)
    }

    /** The title the download is saved under: it depends on the full name
        alone, whichever template is chosen. */
    function Title(): (title: string)
      reads this
      ensures title == Download.DocumentTitle(resumeData.personalInfo.fullName)
      ensures resumeData.personalInfo.fullName == "" ==> title == Download.Fallback
      ensures resumeData.personalInfo.fullName != "" ==>
        |title| > |Download.Suffix| && title[|title| - |Download.Suffix|..] == Download.Suffix
    {
      Download.DocumentTitle(resumeData.personalInfo.fullName)
    }
  }
}
