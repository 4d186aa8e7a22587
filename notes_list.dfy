/**
 * The notes overview of app/notes/page.tsx: the mock notes, the search
 * over titles, contents and tags, the "My Notes" / "Shared with Me" split,
 * the sharing caption, the per-card controls and the empty state.
 */
module NotesList {
  import opened Wrappers
  import opened Text
  import opened Seqs
  import Auth

  datatype Note = Note(
    id: nat, title: string, content: string, author: string, authorId: string,
    className: string, classId: nat, sharedWith: string, tags: seq<string>,
    createdAt: string, updatedAt: string, isOwner: bool)

  /** `user?.id === '1'` */
  predicate OwnsFirstNote(user: Option<Auth.User>)
  {
    user.Some? && user.value.id == "1"
  }

  /** The three mock notes; `MockNotes` sets the owner flag of the first
      for the signed-in user. */
  const FirstNote: Note := Note(1, "React Hooks Deep Dive",
        "useState and useEffect are fundamental hooks that every React developer should master...",
        "John Doe", "1", "React Fundamentals", 1, "class", ["React", "Hooks", "JavaScript"],
        "2 hours ago", "1 hour ago", false)
  const SecondNote: Note := Note(2, "JavaScript Closures Explained",
        "Closures are a powerful feature in JavaScript that allows functions to access variables...",
        "Sarah Johnson", "2", "Advanced JavaScript", 2, "peers", ["JavaScript", "Closures", "Functions"],
        "1 day ago", "1 day ago", false)
  const ThirdNote: Note := Note(3, "Node.js Express Middleware",
        "Middleware functions are functions that have access to the request object...",
        "Mike Chen", "3", "Node.js & Express", 3, "private", ["Node.js", "Express", "Middleware"],
        "3 days ago", "2 days ago", false)

  function MockNotes(user: Option<Auth.User>): (r: seq<Note>)
    ensures |r| == 3 && forall i :: 0 <= i < 3 ==> r[i].id == i + 1
    ensures r[0].sharedWith == "class" && r[1].sharedWith == "peers" && r[2].sharedWith == "private"
  {
    [FirstNote.(isOwner := OwnsFirstNote(user)), SecondNote, ThirdNote]
  }

  /** Only the first note can be owned, and only by user `'1'`. */
  lemma MockOwnership(user: Option<Auth.User>)
    ensures var m := MockNotes(user);
      |m| == 3 && (m[0].isOwner <==> user.Some? && user.value.id == "1")
      && forall i :: 1 <= i < |m| ==> !m[i].isOwner
  {
  }

  /** Every session the mock provider can hold (the demo student or any
      logged-in user) has id `'1'` and so owns the first note. */
  lemma SessionUsersOwnFirstNote(email: string, password: string)
    ensures OwnsFirstNote(Some(Auth.MockStudent))
    ensures OwnsFirstNote(Some(Auth.LoginUser(email, password)))
  {
    var u := Auth.LoginUser(email, password);
    assert u.id == "1";
  }

  // ---------------------------------------------------------------- search

  /** `note.tags.some(tag => …)` */
  predicate SomeTagMatches(tags: seq<string>, query: string)
  {
    exists i :: 0 <= i < |tags| && MatchesQuery(tags[i], query)
  }

  predicate Matches(note: Note, query: string)
  {
    MatchesQuery(note.title, query) || MatchesQuery(note.content, query) || SomeTagMatches(note.tags, query)
  }

  /** `filteredNotes` */
  function Search(items: seq<Note>, query: string): (r: seq<Note>)
    ensures forall n :: n in r <==> n in items && Matches(n, query)
    ensures forall n :: multiset(r)[n] == if Matches(n, query) then multiset(items)[n] else 0
    ensures IsSubseq(r, items)
  {
    var p := note => Matches(note, query);
    FilterCounts(items, p);
    Filter(items, p)
  }

  /** A tag alone is enough for a note to be found. */
  lemma TagHitIsFound(items: seq<Note>, k: nat, t: nat, query: string)
    requires k < |items| && t < |items[k].tags| && MatchesQuery(items[k].tags[t], query)
    ensures items[k] in Search(items, query)
  {
  }

  lemma EmptySearchKeepsAll(items: seq<Note>)
    ensures Search(items, "") == items
  {
    forall n | n in items
      ensures Matches(n, "")
    {
      EmptyQueryMatches(n.title);
    }
    FilterKeepsAll(items, note => Matches(note, ""));
  }

  lemma SearchIgnoresQueryCase(items: seq<Note>, query: string)
    ensures Search(items, Lower(query)) == Search(items, query)
  {
    forall i | 0 <= i < |items|
      ensures Matches(items[i], Lower(query)) == Matches(items[i], query)
    {
      var n := items[i];
      QueryCaseIrrelevant(n.title, query);
      QueryCaseIrrelevant(n.content, query);
      forall t | 0 <= t < |n.tags|
        ensures MatchesQuery(n.tags[t], Lower(query)) == MatchesQuery(n.tags[t], query)
      {
        QueryCaseIrrelevant(n.tags[t], query);
      }
    }
    FilterCongruent(items, note => Matches(note, Lower(query)), note => Matches(note, query));
  }

  // ------------------------------------------------------------- partition

  /** The "My Notes" tab: every owned note, as often as it occurs. */
  function MyNotes(filtered: seq<Note>): (r: seq<Note>)
    ensures forall n :: multiset(r)[n] == if n.isOwner then multiset(filtered)[n] else 0
  {
    var p := (note: Note) => note.isOwner;
    FilterCounts(filtered, p);
    Filter(filtered, p)
  }

  /** The "Shared with Me" tab: every note not owned, as often as it occurs. */
  function SharedNotes(filtered: seq<Note>): (r: seq<Note>)
    ensures forall n :: multiset(r)[n] == if n.isOwner then 0 else multiset(filtered)[n]
  {
    var p := (note: Note) => !note.isOwner;
    FilterCounts(filtered, p);
    Filter(filtered, p)
  }

  /** The two tabs split the filtered notes: each keeps the filtered order,
      no note is in both, together they hold every filtered note as often
      as it occurs, and their counts add up to the "All Notes" count. */
  lemma MySharedPartition(filtered: seq<Note>)
    ensures IsSubseq(MyNotes(filtered), filtered) && IsSubseq(SharedNotes(filtered), filtered)
    ensures forall n :: !(n in MyNotes(filtered) && n in SharedNotes(filtered))
    ensures multiset(MyNotes(filtered)) + multiset(SharedNotes(filtered)) == multiset(filtered)
    ensures |MyNotes(filtered)| + |SharedNotes(filtered)| == |filtered|
  {
    FilterSplits(filtered, (note: Note) => note.isOwner, (note: Note) => !note.isOwner);
  }

  // ---------------------------------------------------------------- labels

  datatype ShareIcon = UsersIcon | ShareArrowIcon | EyeIcon

  function ShareText(sharedWith: string): (r: string)
    ensures r == "Shared with class" <==> sharedWith == "class"
    ensures r == "Shared with peers" <==> sharedWith == "peers"
  {
    if sharedWith == "class" then "Shared with class"
    else if sharedWith == "peers" then "Shared with peers"
    else "Private"
  }

  function ShareIconOf(sharedWith: string): (r: ShareIcon)
    ensures r == UsersIcon <==> sharedWith == "class"
    ensures r == ShareArrowIcon <==> sharedWith == "peers"
  {
    if sharedWith == "class" then UsersIcon
    else if sharedWith == "peers" then ShareArrowIcon
    else EyeIcon
  }

  /** Any value but `class` and `peers`, `public` included, reads as
      Private, and the icon follows the caption. */
  lemma ShareCaptions(sharedWith: string)
    ensures ShareText(sharedWith) == "Private" <==> sharedWith != "class" && sharedWith != "peers"
    ensures ShareText("public") == "Private"
    ensures ShareIconOf(sharedWith) == EyeIcon <==> ShareText(sharedWith) == "Private"
    ensures ShareIconOf(sharedWith) == UsersIcon <==> ShareText(sharedWith) == "Shared with class"
  {
    assert "Shared with class"[0] != "Private"[0] && "Shared with peers"[0] != "Private"[0];
    assert "Shared with class" != "Shared with peers" by {
      assert "Shared with class"[12] != "Shared with peers"[12];
    }
    assert "public"[0] != "class"[0] && "public"[0] != "peers"[1];
  }

  // -------------------------------------------------------------- controls

  /** The Edit/Delete pair and the Share button of one card. */
  datatype Controls = Controls(editDelete: bool, share: bool)

  function ControlsFor(note: Note): (c: Controls)
    ensures c.editDelete <==> note.isOwner
    ensures c.share <==> !note.isOwner
    ensures c.editDelete != c.share
  {
    Controls(note.isOwner, !note.isOwner)
  }

  // ------------------------------------------------------------ empty state

  datatype EmptyState = EmptyState(message: string, createButton: bool)

  /** Lines 241-257: shown only when nothing matches. */
  function EmptyStateOf(filtered: seq<Note>, query: string): (r: Option<EmptyState>)
    ensures r.Some? <==> filtered == []
    ensures r.Some? ==> (r.value.createButton <==> query == "")
    ensures r.Some? && query != "" ==> r.value.message == "Try adjusting your search terms"
    ensures r.Some? && query == "" ==> r.value.message == "Create your first note to get started"
  {
    if filtered != [] then None
    else if query != "" then Some(EmptyState("Try adjusting your search terms", false))
    else Some(EmptyState("Create your first note to get started", true))
  }

  /** With the mock notes the create prompt never shows: an empty query
      keeps all three notes. */
  lemma CreatePromptUnreachable(user: Option<Auth.User>)
    ensures EmptyStateOf(Search(MockNotes(user), ""), "") == None
  {
    EmptySearchKeepsAll(MockNotes(user));
  }
}
