/** The template picker: a fixed list of seven templates drawn as buttons,
    the one whose id is the current selection highlighted, and a click that
    hands the button's own id to the owner of the selection. */
module Selector {
  import Preview

  /** One entry of the picker's list. */
  datatype TemplateOption = TemplateOption(id: string, name: string, description: string)

  /** The picker's list, in display order. */
  const Templates: seq<TemplateOption> := [
    TemplateOption("classic", "Classic", "professional"),
    TemplateOption("modern", "Modern", "Clean and contemporary"),
    TemplateOption("elegant", "Elegant", "Sophisticated design"),
    TemplateOption("minimal", "Minimal", "Simple and focused"),
    TemplateOption("colorful", "Colorful", "Eye-catching accents"),
    TemplateOption("creative", "Creative", "Unique and artistic"),
    TemplateOption("business", "Business", "Corporate standard")
  ]

  const Heading: string := "Choose Template"

  /** The template each entry of the list stands for, in list order. */
  const Listed: seq<Preview.Template> := [
    Preview.Classic, Preview.Modern, Preview.Elegant, Preview.Minimal,
    Preview.Colorful, Preview.Creative, Preview.Business
  ]

  /** Where a template stands in the list. */
  function Position(t: Preview.Template): (i: nat)
    ensures i < |Listed| && Listed[i] == t
  {
    match t
    case Classic => 0
    case Modern => 1
    case Elegant => 2
    case Minimal => 3
    case Colorful => 4
    case Creative => 5
    case Business => 6
  }

  /** The list has seven entries, Classic first, each carrying the id its
      template is selected by, and no two entries share an id. */
  lemma TemplatesListed()
    ensures |Templates| == |Listed| == 7
    ensures Templates[0].id == "classic"
    ensures forall i :: 0 <= i < |Templates| ==> Templates[i].id == Preview.IdOf(Listed[i])
    ensures forall i, j :: 0 <= i < j < |Templates| ==> Templates[i].id != Templates[j].id
  {
    forall i, j | 0 <= i < j < |Templates|
      ensures Templates[i].id != Templates[j].id
    {
      Preview.IdsDistinct(Listed[i], Listed[j]);
    }
  }

  /** Every listed id has a case of its own in the preview's switch, and
      every case of the switch is listed. */
  lemma ListedIdsResolve()
    ensures forall i :: 0 <= i < |Templates| ==> Preview.IdOf(Preview.Resolve(Templates[i].id)) == Templates[i].id
    ensures forall t: Preview.Template :: Preview.Resolve(Templates[Position(t)].id) == t
  {
    TemplatesListed();
    forall i | 0 <= i < |Templates|
      ensures Preview.IdOf(Preview.Resolve(Templates[i].id)) == Templates[i].id
    {
      Preview.ResolveIdOf(Listed[i]);
    }
    forall t: Preview.Template
      ensures Preview.Resolve(Templates[Position(t)].id) == t
    {
      Preview.ResolveIdOf(t);
    }
  }

  datatype Variant = Highlighted | Outline

  /** A button of the picker: the entry's name and description, and its
      variant. */
  datatype Button = Button(option: TemplateOption, variant: Variant)

  /** The buttons, one per entry in list order; a button is highlighted
      exactly when its id is the current selection. */
  function Buttons(selected: string): (bs: seq<Button>)
    ensures |bs| == |Templates|
    ensures forall i :: 0 <= i < |bs| ==> bs[i].option == Templates[i]
    ensures forall i :: 0 <= i < |bs| ==> (bs[i].variant == Highlighted <==> Templates[i].id == selected)
  {
    seq(|Templates|, i requires 0 <= i < |Templates| =>
      Button(Templates[i], if selected == Templates[i].id then Highlighted else Outline))
  }

  /** At most one button is highlighted. */
  lemma AtMostOneHighlighted(selected: string, i: nat, j: nat)
    requires i < |Templates| && j < |Templates|
    requires Buttons(selected)[i].variant == Highlighted
    requires Buttons(selected)[j].variant == Highlighted
    ensures i == j
  {
    TemplatesListed();
  }

  /** A listed selection highlights its own button; any other selection
      highlights none. */
  lemma HighlightFollowsSelection(selected: string)
    ensures (exists i :: 0 <= i < |Templates| && Buttons(selected)[i].variant == Highlighted)
      <==> Preview.IdOf(Preview.Resolve(selected)) == selected
  {
    TemplatesListed();
    var bs := Buttons(selected);
    var t := Preview.Resolve(selected);
    if Preview.IdOf(t) == selected {
      var i := Position(t);
      assert bs[i].variant == Highlighted;
    } else {
      forall i | 0 <= i < |Templates|
        ensures bs[i].variant == Outline
      {
        Preview.ResolveIdOf(Listed[i]);
      }
    }
  }

  /** The entries and their order do not depend on the selection. */
  lemma SameListForAnySelection(s: string, s': string)
    ensures |Buttons(s)| == |Buttons(s')|
    ensures forall i :: 0 <= i < |Buttons(s)| ==> Buttons(s)[i].option == Buttons(s')[i].option
  {
  }

  /** The id a click on button `i` hands on. */
  function Click(selected: string, i: nat): (id: string)
    requires i < |Templates|
    ensures id == Buttons(selected)[i].option.id
  {
    Templates[i].id
  }

  /** After a click, the clicked button is the highlighted one, and a click
      on the highlighted button hands on the current selection, so it
      changes nothing. */
  lemma ClickHighlights(selected: string, i: nat)
    requires i < |Templates|
    ensures Buttons(Click(selected, i))[i].variant == Highlighted
    ensures forall j :: 0 <= j < |Templates| && j != i ==> Buttons(Click(selected, i))[j].variant == Outline
    ensures Buttons(selected)[i].variant == Highlighted ==> Click(selected, i) == selected
  {
    TemplatesListed();
  }
}
