/**
 * The "Create Homework" form of app/homework/create/page.tsx: the simulated
 * attachment list, the field record with its text and switch fields, and
 * the preview card computed from them.
 */
module HomeworkCreate {
  import opened Wrappers
  import opened Text
  import opened Seqs

  /** A `formData` entry: the text inputs hold strings, the switches booleans. */
  datatype FieldValue = TextValue(text: string) | FlagValue(flag: bool)

  /** The initial `formData`. */
  const InitialFormData: map<string, FieldValue> := map[
    "title" := TextValue(""), "description" := TextValue(""), "instructions" := TextValue(""),
    "classId" := TextValue(""), "points" := TextValue("100"),
    "allowLateSubmissions" := FlagValue(true), "requireFiles" := FlagValue(false),
    "multipleAttempts" := FlagValue(false)]

  // ----------------------------------------------------------- attachments

  /** `attachment_${n}.pdf` */
  function AttachmentName(n: nat): string
  {
    "attachment_" + NatToString(n) + ".pdf"
  }

  /** The number in a name can be read back, so different numbers give
      different names. */
  lemma AttachmentNameInjective(a: nat, b: nat)
    requires AttachmentName(a) == AttachmentName(b)
    ensures a == b
  {
    var na, nb := AttachmentName(a), AttachmentName(b);
    assert NatToString(a) == na[11..|na| - 4];
    assert NatToString(b) == nb[11..|nb| - 4];
    NatToStringInjective(a, b);
  }

  /** `addAttachment` on a list value: the next name is numbered from the
      current length. */
  function WithAttachment(attachments: seq<string>): seq<string>
  {
    attachments + [AttachmentName(|attachments| + 1)]
  }

  /** The list after `k` additions and no removal. */
  function Numbered(k: nat): (r: seq<string>)
    ensures |r| == k
    ensures forall i :: 0 <= i < k ==> r[i] == AttachmentName(i + 1)
  {
    seq(k, i requires 0 <= i < k => AttachmentName(i + 1))
  }

  lemma NumberedGrows(k: nat)
    ensures WithAttachment(Numbered(k)) == Numbered(k + 1)
  {
  }

  /** Without removals no name repeats. */
  lemma NumberedDistinct(k: nat)
    ensures NoDuplicates(Numbered(k))
  {
    var r := Numbered(k);
    forall i, j | 0 <= i < j < k
      ensures r[i] != r[j]
    {
      if r[i] == r[j] {
        AttachmentNameInjective(i + 1, j + 1);
      }
    }
  }

  /** Names are not unique in general: from two attachments, removing the
      first and adding one more gives `attachment_2.pdf` twice. */
  lemma RemoveThenAddRepeatsName()
    ensures var s := WithAttachment(RemoveAt(Numbered(2), 0));
      s == ["attachment_2.pdf", "attachment_2.pdf"] && !NoDuplicates(s)
  {
    var s := WithAttachment(RemoveAt(Numbered(2), 0));
    assert NatToString(2) == "2";
    assert AttachmentName(2) == "attachment_2.pdf";
    assert s[0] == AttachmentName(2) && s[1] == AttachmentName(2);
  }

  // ---------------------------------------------------------------- preview

  /** JavaScript truthiness of a field, `undefined` for a missing one. */
  predicate Truthy(v: Option<FieldValue>)
  {
    match v
    case None => false
    case Some(TextValue(s)) => s != ""
    case Some(FlagValue(b)) => b
  }

  /** What React renders for a field: strings as they are, booleans and
      `undefined` as nothing. */
  function Rendered(v: Option<FieldValue>): string
  {
    match v
    case Some(TextValue(s)) => s
    case _ => ""
  }

  /** The "Assignment Preview" card. */
  datatype Preview = Preview(points: string, dueDate: string, attachmentCount: nat, lateSubmissions: string)

  /** `formattedDueDate` stands for `format(dueDate, "MMM dd")`. */
  function PreviewOf(formData: map<string, FieldValue>, formattedDueDate: Option<string>, attachments: seq<string>): (p: Preview)
    ensures p.lateSubmissions == "Allowed" <==> Truthy(Lookup(formData, "allowLateSubmissions"))
    ensures p.lateSubmissions != "Allowed" ==> p.lateSubmissions == "Not allowed"
    ensures p.attachmentCount == |attachments|
    ensures formattedDueDate.None? ==> p.dueDate == "Not set"
    ensures formattedDueDate.Some? ==> p.dueDate == formattedDueDate.value
    ensures p.points == Rendered(Lookup(formData, "points"))
  {
    Preview(
      Rendered(Lookup(formData, "points")),
      if formattedDueDate.Some? then formattedDueDate.value else "Not set",
      |attachments|,
      if Truthy(Lookup(formData, "allowLateSubmissions")) then "Allowed" else "Not allowed")
  }

  /** A fresh form previews 100 points, no due date, no attachments and
      late submissions allowed. */
  lemma InitialPreview()
    ensures PreviewOf(InitialFormData, None, []) == Preview("100", "Not set", 0, "Allowed")
  {
    assert Lookup(InitialFormData, "points") == Some(TextValue("100"));
    assert Lookup(InitialFormData, "allowLateSubmissions") == Some(FlagValue(true));
  }

  /** Flipping the late-submission switch flips the preview label and
      nothing else in the card. */
  lemma SwitchLateSubmissions(formData: map<string, FieldValue>, d: Option<string>, attachments: seq<string>, b: bool)
    ensures var p := PreviewOf(formData["allowLateSubmissions" := FlagValue(b)], d, attachments);
      p.lateSubmissions == (if b then "Allowed" else "Not allowed")
      && p.points == PreviewOf(formData, d, attachments).points
  {
  }

  // ------------------------------------------------------------------ form

  class CreateHomeworkForm {
    var isLoading: bool
    var dueDate: Option<int>
    var attachments: seq<string>
    var formData: map<string, FieldValue>

    /** The initial state of every field. */
    constructor ()
      ensures !isLoading && dueDate == None && attachments == [] && formData == InitialFormData
    {
      isLoading := false;
      dueDate := None;
      attachments := [];
      formData := InitialFormData;
    }

    /** `addAttachment`: one more name, numbered one past the current
        length; the earlier names stay where they were. */
    method AddAttachment()
      modifies this
      ensures attachments == WithAttachment(old(attachments))
      ensures |attachments| == |old(attachments)| + 1 && attachments[..|old(attachments)|] == old(attachments)
      ensures attachments[|old(attachments)|] == AttachmentName(|old(attachments)| + 1)
      ensures formData == old(formData) && dueDate == old(dueDate) && isLoading == old(isLoading)
    {
      var fileName := AttachmentName(|attachments| + 1);
      attachments := attachments + [fileName];
    }

    /** `removeAttachment(index)`: drops exactly the entry at `index`, or
        nothing when `index` is not a position of the list. */
    method RemoveAttachment(index: int)
      modifies this
      ensures attachments == RemoveAt(old(attachments), index)
      ensures formData == old(formData) && dueDate == old(dueDate) && isLoading == old(isLoading)
    {
      attachments := RemoveAt(attachments, index);
    }

    /** `handleInputChange(field, value)`: sets that one entry. */
    method HandleInputChange(field: string, value: FieldValue)
      modifies this
      ensures formData == old(formData)[field := value]
      ensures forall f :: f in old(formData) && f != field ==> f in formData && formData[f] == old(formData)[f]
      ensures attachments == old(attachments) && dueDate == old(dueDate) && isLoading == old(isLoading)
    {
      formData := formData[field := value];
    }

    /** The calendar's `onSelect`: a picked day, or `None` when the
        selected day is clicked again and the selection is cleared. */
    method SetDueDate(d: Option<int>)
      modifies this
      ensures dueDate == d
      ensures attachments == old(attachments) && formData == old(formData) && isLoading == old(isLoading)
    {
      dueDate := d;
    }

    /** The preview card of the current state. */
    function CurrentPreview(format: int -> string): (p: Preview)
      reads this
      ensures p.attachmentCount == |attachments|
      ensures p.lateSubmissions == "Allowed" <==> Truthy(Lookup(formData, "allowLateSubmissions"))
      ensures dueDate.None? ==> p.dueDate == "Not set"
    {
      PreviewOf(formData, if dueDate.Some? then Some(format(dueDate.value)) else None, attachments)
    }
  }
}
