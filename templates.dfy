/** The fixed template catalog of src/components/DocumentTemplates.tsx. */
module DocumentTemplates {
  import opened Wrappers
  import opened AppTypes

  /** The string value of a template's `type`. */
  function KindName(k: TemplateKind): string {
    match k
    case Letter => "letter"
    case Invoice => "invoice"
    case Report => "report"
    case Memo => "memo"
  }

  const Templates: seq<DocumentTemplate> := [
    DocumentTemplate("letter", "Surat Resmi", Some(Letter),
      "Template untuk surat resmi, undangan, atau korespondensi bisnis"),
    DocumentTemplate("invoice", "Invoice", Some(Invoice),
      "Template untuk invoice, tagihan, atau dokumen keuangan"),
    DocumentTemplate("report", "Laporan", Some(Report),
      "Template untuk laporan, proposal, atau dokumen formal"),
    DocumentTemplate("memo", "Memo Internal", Some(Memo),
      "Template untuk memo, pengumuman, atau komunikasi internal")
  ]

  /** Four entries, in the order letter, invoice, report, memo; each entry's id
      is the name of its type. */
  lemma CatalogShape()
    ensures |Templates| == 4
    ensures Templates[0].kind == Some(Letter) && Templates[1].kind == Some(Invoice)
    ensures Templates[2].kind == Some(Report) && Templates[3].kind == Some(Memo)
    ensures forall i :: 0 <= i < |Templates| ==>
      Templates[i].kind.Some? && Templates[i].id == KindName(Templates[i].kind.value)
    ensures Templates[0].name == "Surat Resmi"
  {
  }

  /** Different types have different names, so catalog ids are unique. */
  lemma {:induction false} CatalogIdsUnique()
    ensures forall i, j :: 0 <= i < j < |Templates| ==> Templates[i].id != Templates[j].id
  {
    CatalogShape();
    forall i, j | 0 <= i < j < |Templates| ensures Templates[i].id != Templates[j].id {
      KindNameInjective(Templates[i].kind.value, Templates[j].kind.value);
    }
  }

  lemma KindNameInjective(a: TemplateKind, b: TemplateKind)
    ensures KindName(a) == KindName(b) ==> a == b
  {
  }

  /** `selectedTemplate?.id === template.id`. */
  predicate IsSelected(selected: Option<DocumentTemplate>, t: DocumentTemplate) {
    selected.Some? && selected.value.id == t.id
  }

  /** At most one catalog entry is highlighted, whatever is selected. */
  lemma AtMostOneSelected(selected: Option<DocumentTemplate>)
    ensures forall i, j ::
      (0 <= i < |Templates| && 0 <= j < |Templates|
       && IsSelected(selected, Templates[i]) && IsSelected(selected, Templates[j])) ==> i == j
  {
    CatalogIdsUnique();
  }

  /** The four `type === ... && label` fragments of the category chip, joined. */
  function CategoryTag(t: DocumentTemplate): (tag: string)
    ensures t.kind == Some(Letter) ==> tag == "Formal"
    ensures t.kind == Some(Invoice) ==> tag == "Keuangan"
    ensures t.kind == Some(Report) ==> tag == "Dokumen"
    ensures t.kind == Some(Memo) ==> tag == "Internal"
    ensures t.kind.None? ==> tag == ""
  {
    (if t.kind == Some(Letter) then "Formal" else "")
    + (if t.kind == Some(Invoice) then "Keuangan" else "")
    + (if t.kind == Some(Report) then "Dokumen" else "")
    + (if t.kind == Some(Memo) then "Internal" else "")
  }
}
