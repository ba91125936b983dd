/** The preview pane: a switch on the template id that picks one of the
    seven templates, Classic for any id it does not know, and the container
    the chosen page is placed in (the element the download prints). */
module Preview {
  import opened Resume
  import opened Blocks
  import opened Layout
  import ClassicTemplate
  import ModernTemplate
  import ElegantTemplate
  import MinimalTemplate
  import ColorfulTemplate
  import CreativeTemplate
  import BusinessTemplate

  /** The seven templates the preview can render. */
  datatype Template = Classic | Modern | Elegant | Minimal | Colorful | Creative | Business

  /** The id each template is selected by. */
  function IdOf(t: Template): string {
    match t
    case Classic => "classic"
    case Modern => "modern"
    case Elegant => "elegant"
    case Minimal => "minimal"
    case Colorful => "colorful"
    case Creative => "creative"
    case Business => "business"
  }

  /** The `switch (templateId)`: each of the seven ids selects its own
      template, and every other id, `""` included, takes the default
      branch, Classic. */
  function Resolve(id: string): (t: Template)
    ensures forall u: Template :: IdOf(u) == id ==> t == u
    ensures t != Classic ==> IdOf(t) == id
  {
    if id == "modern" then Modern
    else if id == "elegant" then Elegant
    else if id == "minimal" then Minimal
    else if id == "colorful" then Colorful
    else if id == "creative" then Creative
    else if id == "business" then Business
    else Classic
  }

  /** Every template has its own case in the switch. */
  lemma ResolveIdOf(t: Template)
    ensures Resolve(IdOf(t)) == t
  {
  }

  /** The ids of different templates differ. */
  lemma IdsDistinct(t: Template, u: Template)
    ensures IdOf(t) == IdOf(u) <==> t == u
  {
    ResolveIdOf(t);
    ResolveIdOf(u);
  }

  /** The page of one template, for the record handed in unchanged. */
  function RenderAs(t: Template, fmt: string -> string, d: ResumeData): seq<Block> {
    match t
    case Classic => ClassicTemplate.Render(fmt, d)
    case Modern => ModernTemplate.Render(fmt, d)
    case Elegant => ElegantTemplate.Render(fmt, d)
    case Minimal => MinimalTemplate.Render(fmt, d)
    case Colorful => ColorfulTemplate.Render(fmt, d)
    case Creative => CreativeTemplate.Render(fmt, d)
    case Business => BusinessTemplate.Render(fmt, d)
  }

  /** `renderTemplate()`: the page depends on the id only through the
      template it selects. */
  function RenderTemplate(fmt: string -> string, d: ResumeData, id: string): seq<Block> {
    RenderAs(Resolve(id), fmt, d)
  }

  /** Any id outside the seven renders exactly the Classic page. */
  lemma UnknownRendersClassic(fmt: string -> string, d: ResumeData, id: string)
    requires forall t: Template :: IdOf(t) != id
    ensures RenderTemplate(fmt, d, id) == ClassicTemplate.Render(fmt, d)
    ensures RenderTemplate(fmt, d, id) == RenderTemplate(fmt, d, "classic")
  {
    ResolveIdOf(Classic);
  }

  /** The element the page is placed in. */
  datatype Container = Container(id: string, page: seq<Block>)

  const ContainerId: string := "resume-preview"

  /** The preview: whatever the id, the rendered page sits inside the
      element with id `resume-preview`. */
  function PreviewPane(fmt: string -> string, d: ResumeData, templateId: string): (c: Container)
    ensures c.id == ContainerId
    ensures c.page == RenderAs(Resolve(templateId), fmt, d)
  {
    Container(ContainerId, RenderTemplate(fmt, d, templateId))
  }
}
