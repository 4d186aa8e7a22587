/**
 * The classes overview of app/classes/page.tsx: the mock classes, the
 * search over titles and descriptions, the owner's and the visitor's
 * buttons, the role-dependent header and the empty state.
 */
module ClassesList {
  import opened Wrappers
  import opened Text
  import opened Seqs

  /** One class card's record; the banner image URL and the colour class
      only style the card and are not part of the record here. */
  datatype Class = Class(
    id: nat, title: string, description: string, teacher: string, students: nat,
    code: string, isOwner: bool)

  /** The three mock classes; `MockClasses` sets the owner flag of the
      first and the third to whether the viewer is a teacher. */
  const FirstClass: Class := Class(1, "React Fundamentals",
    "Learn the basics of React including components, state, and props",
    "Dr. Sarah Johnson", 32, "RC2024", false)
  const SecondClass: Class := Class(2, "Advanced JavaScript",
    "Deep dive into JavaScript ES6+, async programming, and modern patterns",
    "Prof. Michael Chen", 28, "JS2024", false)
  const ThirdClass: Class := Class(3, "Node.js & Express",
    "Backend development with Node.js, Express framework, and databases",
    "Dr. Sarah Johnson", 24, "NODE24", false)

  function MockClasses(isTeacher: bool): (r: seq<Class>)
    ensures |r| == 3 && forall i :: 0 <= i < 3 ==> r[i].id == i + 1
    ensures r[0].code == "RC2024" && r[1].code == "JS2024" && r[2].code == "NODE24"
  {
    [FirstClass.(isOwner := isTeacher), SecondClass, ThirdClass.(isOwner := isTeacher)]
  }

  /** Classes 1 and 3 are the viewer's exactly when the viewer teaches;
      class 2 never is. */
  lemma MockOwnership(isTeacher: bool)
    ensures var m := MockClasses(isTeacher);
      |m| == 3 && (m[0].isOwner <==> isTeacher) && !m[1].isOwner && (m[2].isOwner <==> isTeacher)
  {
  }

  // ---------------------------------------------------------------- search

  predicate Matches(cls: Class, query: string)
  {
    MatchesQuery(cls.title, query) || MatchesQuery(cls.description, query)
  }

  /** `filteredClasses` */
  function Search(items: seq<Class>, query: string): (r: seq<Class>)
    ensures forall c :: c in r <==> c in items && Matches(c, query)
    ensures forall c :: multiset(r)[c] == if Matches(c, query) then multiset(items)[c] else 0
    ensures IsSubseq(r, items)
  {
    var p := cls => Matches(cls, query);
    FilterCounts(items, p);
    Filter(items, p)
  }

  lemma EmptySearchKeepsAll(items: seq<Class>)
    ensures Search(items, "") == items
  {
    forall c | c in items
      ensures Matches(c, "")
    {
      EmptyQueryMatches(c.title);
    }
    FilterKeepsAll(items, cls => Matches(cls, ""));
  }

  lemma SearchIgnoresQueryCase(items: seq<Class>, query: string)
    ensures Search(items, Lower(query)) == Search(items, query)
  {
    forall i | 0 <= i < |items|
      ensures Matches(items[i], Lower(query)) == Matches(items[i], query)
    {
      QueryCaseIrrelevant(items[i].title, query);
      QueryCaseIrrelevant(items[i].description, query);
    }
    FilterCongruent(items, cls => Matches(cls, Lower(query)), cls => Matches(cls, query));
  }

  // --------------------------------------------------------------- buttons

  /** The banner's more-options button, and the card's Edit or Share. */
  datatype CardButtons = CardButtons(moreOptions: bool, edit: bool, share: bool)

  function ButtonsFor(cls: Class): (b: CardButtons)
    ensures b.moreOptions <==> cls.isOwner
    ensures b.edit <==> cls.isOwner
    ensures b.share <==> !cls.isOwner
  {
    CardButtons(cls.isOwner, cls.isOwner, !cls.isOwner)
  }

  /** The header: its subtitle, the students' Join Class dialog and the
      teachers' Create Class link. */
  datatype Header = Header(subtitle: string, joinDialog: bool, createLink: bool)

  function HeaderFor(isTeacher: bool): (h: Header)
    ensures h.joinDialog == !isTeacher && h.createLink == isTeacher
  {
    Header(if isTeacher then "Manage your classes and track student progress" else "Your enrolled classes",
      !isTeacher, isTeacher)
  }

  // ------------------------------------------------------------ empty state

  /** The empty-state button: its caption and where it links. */
  datatype EmptyButton = EmptyButton(caption: string, href: string)

  datatype EmptyState = EmptyState(message: string, button: Option<EmptyButton>)

  /** Lines 218-238: shown only when nothing matches. */
  function EmptyStateOf(filtered: seq<Class>, query: string, isTeacher: bool): (r: Option<EmptyState>)
    ensures r.Some? <==> filtered == []
    ensures r.Some? ==> (r.value.button.Some? <==> query == "")
    ensures r.Some? && query != "" ==> r.value.message == "Try adjusting your search terms"
    ensures r.Some? && query == "" && isTeacher ==>
      r.value.message == "Create your first class to get started"
      && r.value.button == Some(EmptyButton("Create Class", "/classes/create"))
    ensures r.Some? && query == "" && !isTeacher ==>
      r.value.message == "Join your first class to get started"
      && r.value.button == Some(EmptyButton("Join Class", "#"))
  {
    if filtered != [] then None
    else
      var message :=
        if query != "" then "Try adjusting your search terms"
        else if isTeacher then "Create your first class to get started"
        else "Join your first class to get started";
      var button :=
        if query != "" then None
        else Some(EmptyButton(if isTeacher then "Create Class" else "Join Class", if isTeacher then "/classes/create" else "#"));
      Some(EmptyState(message, button))
  }

  /** With the mock classes an empty query never reaches the empty state. */
  lemma EmptyQueryNeverEmpty(isTeacher: bool)
    ensures EmptyStateOf(Search(MockClasses(isTeacher), ""), "", isTeacher) == None
  {
    EmptySearchKeepsAll(MockClasses(isTeacher));
  }
}
