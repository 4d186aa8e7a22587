/**
 * The homework overview of app/homework/page.tsx: the mock assignments,
 * the search box, the per-status lists, the status badge and icon, the
 * due-date caption, the per-card actions, and the due-date sort of the
 * "All Assignments" tab.
 */
module HomeworkList {
  import opened Wrappers
  import opened Text
  import opened Seqs

  /** One assignment card's record. `dueAt` is `new Date(dueDate).getTime()`,
      the UTC midnight of the date in milliseconds. */
  datatype Homework = Homework(
    id: nat, title: string, description: string, className: string, classId: nat,
    teacher: string, dueDate: string, dueAt: int, dueTime: string, status: string,
    submitted: bool, grade: Option<nat>, maxPoints: nat, attachments: seq<string>, isOwner: bool)

  /** The three mock assignments; `MockHomework` sets the owner flag of
      the first and the third to whether the viewer is a teacher. */
  const FirstHomework: Homework := Homework(1, "React Component Architecture",
    "Build a complete React application using modern component patterns and hooks.",
    "React Fundamentals", 1, "Dr. Sarah Johnson", "2024-12-15", 1734220800000, "23:59",
    "pending", false, None, 100, ["requirements.pdf", "starter-code.zip"], false)
  const SecondHomework: Homework := Homework(2, "JavaScript Quiz - Async Programming",
    "Test your knowledge of promises, async/await, and event loop.",
    "Advanced JavaScript", 2, "Prof. Michael Chen", "2024-12-18", 1734480000000, "14:00",
    "submitted", true, Some(85), 100, [], false)
  const ThirdHomework: Homework := Homework(3, "REST API Development",
    "Create a RESTful API using Node.js and Express with proper authentication.",
    "Node.js & Express", 3, "Dr. Sarah Johnson", "2024-12-22", 1734825600000, "23:59",
    "overdue", false, None, 150, ["api-spec.json"], false)

  function MockHomework(isTeacher: bool): (r: seq<Homework>)
    ensures |r| == 3 && forall i :: 0 <= i < 3 ==> r[i].id == i + 1
    ensures r[0].status == "pending" && r[1].status == "submitted" && r[2].status == "overdue"
  {
    [FirstHomework.(isOwner := isTeacher), SecondHomework, ThirdHomework.(isOwner := isTeacher)]
  }

  lemma MockOwnership(isTeacher: bool)
    ensures var m := MockHomework(isTeacher);
      |m| == 3 && m[0].isOwner == isTeacher && !m[1].isOwner && m[2].isOwner == isTeacher
  {
  }

  // ---------------------------------------------------------------- search

  /** The search test of one assignment. */
  predicate Matches(hw: Homework, query: string)
  {
    MatchesQuery(hw.title, query) || MatchesQuery(hw.description, query) || MatchesQuery(hw.className, query)
  }

  /** `filteredHomework`: the matching assignments in their original order. */
  function Search(items: seq<Homework>, query: string): (r: seq<Homework>)
    ensures forall h :: h in r <==> h in items && Matches(h, query)
    ensures forall h :: multiset(r)[h] == if Matches(h, query) then multiset(items)[h] else 0
    ensures IsSubseq(r, items)
  {
    var p := hw => Matches(hw, query);
    FilterCounts(items, p);
    Filter(items, p)
  }

  /** An empty search box shows everything. */
  lemma EmptySearchKeepsAll(items: seq<Homework>)
    ensures Search(items, "") == items
  {
    forall hw | hw in items
      ensures Matches(hw, "")
    {
      EmptyQueryMatches(hw.title);
    }
    FilterKeepsAll(items, hw => Matches(hw, ""));
  }

  /** The case of the query does not matter. */
  lemma SearchIgnoresQueryCase(items: seq<Homework>, query: string)
    ensures Search(items, Lower(query)) == Search(items, query)
  {
    forall i | 0 <= i < |items|
      ensures Matches(items[i], Lower(query)) == Matches(items[i], query)
    {
      QueryCaseIrrelevant(items[i].title, query);
      QueryCaseIrrelevant(items[i].description, query);
      QueryCaseIrrelevant(items[i].className, query);
    }
    FilterCongruent(items, hw => Matches(hw, Lower(query)), hw => Matches(hw, query));
  }

  // ------------------------------------------------------------ partitions

  /** `filter(hw => hw.status === status)`: every assignment with that
      status, as often as it occurs, in the original order. */
  function WithStatus(items: seq<Homework>, status: string): (r: seq<Homework>)
    ensures forall h :: h in r <==> h in items && h.status == status
    ensures forall h :: multiset(r)[h] == if h.status == status then multiset(items)[h] else 0
    ensures IsSubseq(r, items)
  {
    var p := (hw: Homework) => hw.status == status;
    FilterCounts(items, p);
    Filter(items, p)
  }

  /** The three status tabs. */
  function Pending(filtered: seq<Homework>): (r: seq<Homework>)
    ensures forall h :: multiset(r)[h] == if h.status == "pending" then multiset(filtered)[h] else 0
  {
    WithStatus(filtered, "pending")
  }

  function Submitted(filtered: seq<Homework>): (r: seq<Homework>)
    ensures forall h :: multiset(r)[h] == if h.status == "submitted" then multiset(filtered)[h] else 0
  {
    WithStatus(filtered, "submitted")
  }

  function Overdue(filtered: seq<Homework>): (r: seq<Homework>)
    ensures forall h :: multiset(r)[h] == if h.status == "overdue" then multiset(filtered)[h] else 0
  {
    WithStatus(filtered, "overdue")
  }

  lemma StatusNamesDistinct()
    ensures "pending" != "submitted" && "pending" != "overdue" && "submitted" != "overdue"
  {
    assert "pending"[0] != "submitted"[0] && "pending"[0] != "overdue"[0] && "submitted"[0] != "overdue"[0];
  }

  /** The three status lists are order-preserving pieces of the filtered
      list and no assignment is in two of them. */
  lemma StatusListsPartition(filtered: seq<Homework>)
    ensures IsSubseq(Pending(filtered), filtered) && IsSubseq(Submitted(filtered), filtered)
      && IsSubseq(Overdue(filtered), filtered)
    ensures forall h :: !(h in Pending(filtered) && h in Submitted(filtered))
    ensures forall h :: !(h in Pending(filtered) && h in Overdue(filtered))
    ensures forall h :: !(h in Submitted(filtered) && h in Overdue(filtered))
    ensures forall h :: (h in filtered && (h.status == "pending" || h.status == "submitted" || h.status == "overdue")
      ==> h in Pending(filtered) || h in Submitted(filtered) || h in Overdue(filtered))
  {
    StatusNamesDistinct();
  }

  // ---------------------------------------------------------------- labels

  datatype StatusKind = SubmittedKind | OverdueKind | PendingKind

  /** The `switch (status)` shared by the icon and the badge. */
  function KindOf(status: string): (k: StatusKind)
    ensures k == SubmittedKind <==> status == "submitted"
    ensures k == OverdueKind <==> status == "overdue"
    ensures k == PendingKind <==> status != "submitted" && status != "overdue"
  {
    if status == "submitted" then SubmittedKind
    else if status == "overdue" then OverdueKind
    else PendingKind
  }

  datatype Icon = CheckCircle | AlertCircle | Clock
  datatype Colour = Green | Red | Yellow

  datatype Badge = Badge(caption: string, colour: Option<Colour>, destructive: bool)

  function StatusIcon(status: string): (r: (Icon, Colour))
    ensures r.0 == CheckCircle <==> r.1 == Green
    ensures r.0 == AlertCircle <==> status == "overdue"
  {
    match KindOf(status)
    case SubmittedKind => (CheckCircle, Green)
    case OverdueKind => (AlertCircle, Red)
    case PendingKind => (Clock, Yellow)
  }

  function StatusBadge(status: string): (r: Badge)
    ensures r.destructive <==> status == "overdue"
    ensures r.colour.Some? <==> status == "submitted"
  {
    match KindOf(status)
    case SubmittedKind => Badge("Submitted", Some(Green), false)
    case OverdueKind => Badge("Overdue", None, true)
    case PendingKind => Badge("Pending", None, false)
  }

  /** The colour of the due-date caption (lines 164-166), tested in the
      other order. */
  function CaptionColour(status: string): (r: Colour)
    ensures r == Red <==> status == "overdue"
    ensures r == Green <==> status == "submitted"
  {
    if status == "overdue" then Red else if status == "submitted" then Green else Yellow
  }

  /** The badge text is decided by the status alone, anything that is not
      `submitted` or `overdue` shows as Pending, and the icon and the
      caption colour agree with it. */
  lemma StatusLabelsAgree(status: string)
    ensures StatusBadge(status).caption == "Submitted" <==> status == "submitted"
    ensures StatusBadge(status).caption == "Overdue" <==> status == "overdue"
    ensures StatusBadge(status).caption == "Pending" <==> status != "submitted" && status != "overdue"
    ensures StatusIcon(status).1 == CaptionColour(status)
    ensures StatusIcon(status).0 == CheckCircle <==> status == "submitted"
  {
    assert "Submitted"[0] != "Overdue"[0] && "Submitted"[0] != "Pending"[0] && "Overdue"[0] != "Pending"[0];
  }

  // -------------------------------------------------------------- due date

  const MsPerDay := 1000 * 60 * 60 * 24

  /** `Math.ceil(diffTime / 86400000)` on whole milliseconds. */
  function DaysUntilDue(dueAt: int, now: int): (d: int)
    ensures (d - 1) * MsPerDay < dueAt - now <= d * MsPerDay
  {
    -((now - dueAt) / MsPerDay)
  }

  /** The caption for a whole-day difference `d`. */
  function DueText(d: int): (r: string)
    ensures d < 0 ==> r == NatToString(-d) + " days overdue"
    ensures d == 0 ==> r == "Due today"
    ensures d == 1 ==> r == "Due tomorrow"
    ensures d >= 2 ==> r == NatToString(d) + " days left"
  {
    if d < 0 then NatToString(-d) + " days overdue"
    else if d == 0 then "Due today"
    else if d == 1 then "Due tomorrow"
    else NatToString(d) + " days left"
  }

  /** Reads a caption back to its day difference. */
  function ReadDueText(s: string): Option<int>
  {
    match ParseNatPrefix(s)
    case Some((n, rest)) =>
      if rest == " days overdue" then Some(0 - n)
      else if rest == " days left" then Some(n)
      else None
    case None =>
      if s == "Due today" then Some(0)
      else if s == "Due tomorrow" then Some(1)
      else None
  }

  lemma ReadOverdueText(d: int)
    requires d < 0
    ensures ReadDueText(DueText(d)) == Some(d)
  {
    var n: nat := -d;
    assert DueText(d) == NatToString(n) + " days overdue";
    ParseNatPrefixOfNatToString(n, " days overdue");
  }

  lemma ReadDaysLeftText(d: int)
    requires d >= 2
    ensures ReadDueText(DueText(d)) == Some(d)
  {
    assert DueText(d) == NatToString(d) + " days left";
    ParseNatPrefixOfNatToString(d, " days left");
    assert " days left" != " days overdue" by {
      assert |" days left"| != |" days overdue"|;
    }
  }

  lemma ReadFixedTexts(d: int)
    requires 0 <= d <= 1
    ensures ReadDueText(DueText(d)) == Some(d)
  {
    assert !IsDigit("Due today"[0]) && !IsDigit("Due tomorrow"[0]);
    assert "Due tomorrow" != "Due today" by {
      assert |"Due tomorrow"| != |"Due today"|;
    }
  }

  /** Every caption names its day difference: reading it back gives `d`,
      so different differences never share a caption. */
  lemma ReadDueTextOfDueText(d: int)
    ensures ReadDueText(DueText(d)) == Some(d)
  {
    if d < 0 {
      ReadOverdueText(d);
    } else if d >= 2 {
      ReadDaysLeftText(d);
    } else {
      ReadFixedTexts(d);
    }
  }

  lemma DueTextInjective(d1: int, d2: int)
    requires DueText(d1) == DueText(d2)
    ensures d1 == d2
  {
    ReadDueTextOfDueText(d1);
    ReadDueTextOfDueText(d2);
  }

  // ------------------------------------------------------------ card parts

  datatype CardAction = EditButton | UploadButton | NoButton

  /** Lines 198-206: the owner's Edit button for a teacher, otherwise the
      Upload button while the work is open. */
  function ActionFor(isTeacher: bool, hw: Homework): (r: CardAction)
    ensures r == NoButton <==> !(isTeacher && hw.isOwner) && (hw.submitted || hw.status == "overdue")
  {
    if isTeacher && hw.isOwner then EditButton
    else if !hw.submitted && hw.status != "overdue" then UploadButton
    else NoButton
  }

  lemma ActionVisibility(isTeacher: bool, hw: Homework)
    ensures ActionFor(isTeacher, hw) == EditButton <==> isTeacher && hw.isOwner
    ensures ActionFor(isTeacher, hw) == UploadButton
      <==> !(isTeacher && hw.isOwner) && !hw.submitted && hw.status != "overdue"
  {
  }

  /** The `grade/maxPoints` badge and the progress row: present iff graded. */
  function GradeText(hw: Homework): (r: Option<string>)
    ensures r.Some? <==> hw.grade.Some?
  {
    match hw.grade
    case None => None
    case Some(g) => Some(NatToString(g) + "/" + NatToString(hw.maxPoints))
  }

  /** The badge reads back as the grade and the maximum. */
  lemma GradeTextReadable(hw: Homework)
    requires hw.grade.Some?
    ensures var r := GradeText(hw).value;
      ParseNatPrefix(r) == Some((hw.grade.value, "/" + NatToString(hw.maxPoints)))
  {
    var g, m := hw.grade.value, NatToString(hw.maxPoints);
    assert GradeText(hw).value == NatToString(g) + ("/" + m);
    ParseNatPrefixOfNatToString(g, "/" + m);
  }

  /** The "n attachment(s)" line: present iff there are attachments. */
  function AttachmentLine(hw: Homework): (r: Option<string>)
    ensures r.Some? <==> |hw.attachments| > 0
  {
    if |hw.attachments| > 0 then Some(NatToString(|hw.attachments|) + " attachment(s)") else None
  }

  /** The page chrome that depends on the role: the subtitle, the Create
      Assignment button, the three counter cards and the status tabs. */
  datatype Chrome = Chrome(subtitle: string, createButton: bool, statCards: bool, statusTabs: bool)

  function ChromeFor(isTeacher: bool): (c: Chrome)
    ensures c.createButton == isTeacher && c.statCards == !isTeacher && c.statusTabs == !isTeacher
  {
    Chrome(if isTeacher then "Create and manage assignments for your classes" else "Track your assignments and submissions",
      isTeacher, !isTeacher, !isTeacher)
  }

  // ------------------------------------------------------------------ sort

  predicate SortedByDue(s: seq<Homework>)
  {
    forall k, l :: 0 <= k < l < |s| ==> s[k].dueAt <= s[l].dueAt
  }

  method Swap(a: array<Homework>, i: int, j: int)
    requires 0 <= i < a.Length && 0 <= j < a.Length
    modifies a
    ensures a[..] == old(a[..])[i := old(a[j])][j := old(a[i])]
    ensures multiset(a[..]) == multiset(old(a[..]))
  {
    a[i], a[j] := a[j], a[i];
  }

  /** One insertion step: the entry at `i` sinks into the sorted prefix
      before it, and the rest of the array is not touched. */
  method InsertAt(a: array<Homework>, i: int)
    requires 0 < i < a.Length && SortedByDue(a[..i])
    modifies a
    ensures SortedByDue(a[..i + 1])
    ensures a[i + 1..] == old(a[i + 1..])
    ensures multiset(a[..]) == multiset(old(a[..]))
  {
    var j := i;
    while j > 0 && a[j - 1].dueAt > a[j].dueAt
      invariant 0 <= j <= i
      invariant forall k, l :: 0 <= k < l <= i && k != j && l != j ==> a[k].dueAt <= a[l].dueAt
      invariant forall l :: j < l <= i ==> a[j].dueAt <= a[l].dueAt
      invariant forall l :: 0 < j < l <= i ==> a[j - 1].dueAt <= a[l].dueAt
      invariant a[i + 1..] == old(a[i + 1..])
      invariant multiset(a[..]) == multiset(old(a[..]))
    {
      Swap(a, j - 1, j);
      j := j - 1;
    }
  }

  /** `filteredHomework.sort((a, b) => due(a) - due(b))`, in place. */
  method SortByDueDate(a: array<Homework>)
    modifies a
    ensures SortedByDue(a[..])
    ensures multiset(a[..]) == multiset(old(a[..]))
  {
    if a.Length == 0 {
      return;
    }
    var i := 1;
    while i < a.Length
      invariant 1 <= i <= a.Length
      invariant SortedByDue(a[..i])
      invariant multiset(a[..]) == multiset(old(a[..]))
    {
      InsertAt(a, i);
      i := i + 1;
    }
    assert a[..] == a[..a.Length];
  }

  /** `[...items].sort(byDueDate)` on a fresh array holding `items`. */
  method SortedCopy(items: seq<Homework>) returns (shown: seq<Homework>)
    ensures SortedByDue(shown)
    ensures multiset(shown) == multiset(items)
  {
    var a := new Homework[|items|](i requires 0 <= i < |items| => items[i]);
    assert a[..] == items;
    SortByDueDate(a);
    shown := a[..];
  }

  /** The "All Assignments" tab: the search result in due-date order. */
  method AllTab(isTeacher: bool, query: string) returns (shown: seq<Homework>)
    ensures SortedByDue(shown)
    ensures multiset(shown) == multiset(Search(MockHomework(isTeacher), query))
  {
    shown := SortedCopy(Search(MockHomework(isTeacher), query));
  }
}
