/**
 * The "Create New Note" form of app/notes/create/page.tsx: the tag list
 * with its text box and suggestion chips, and the free-form field record.
 * Each React state variable is a field; each handler is a method that
 * replaces the fields it sets.
 */
module NotesCreate {
  import opened Text
  import opened Seqs

  /** The suggestion chips shown under the tag box. */
  const Suggestions: seq<string> := ["React", "JavaScript", "Components", "Hooks", "State"]

  /** The initial `formData`. */
  const InitialFormData: map<string, string> :=
    map["title" := "", "content" := "", "classId" := "", "shareWith" := "private"]

  /** The tag lists the form can reach: no tag twice, none empty, none
      with whitespace at its ends. */
  predicate ValidTags(tags: seq<string>)
  {
    NoDuplicates(tags) && forall i :: 0 <= i < |tags| ==> tags[i] != "" && IsTrimmed(tags[i])
  }

  /** The guarded append of `addTag`: a candidate is added when it is
      non-empty and not yet present. */
  function Added(tags: seq<string>, candidate: string): seq<string>
  {
    if candidate != "" && candidate !in tags then tags + [candidate] else tags
  }

  /** Adding a trimmed candidate keeps the tag list valid and leaves the
      candidate in it (when non-empty). */
  lemma AddedKeepsValid(tags: seq<string>, candidate: string)
    requires ValidTags(tags) && IsTrimmed(candidate)
    ensures ValidTags(Added(tags, candidate))
    ensures candidate != "" ==> candidate in Added(tags, candidate)
    ensures |Added(tags, candidate)| == |tags| + (if candidate != "" && candidate !in tags then 1 else 0)
  {
  }

  /** Pressing "Add" twice with the same text adds it once. */
  lemma AddedIdempotent(tags: seq<string>, candidate: string)
    ensures Added(Added(tags, candidate), candidate) == Added(tags, candidate)
  {
  }

  /** Removing a freshly added tag gives the list back. */
  lemma RemoveUndoesAdd(tags: seq<string>, candidate: string)
    requires candidate !in tags
    ensures RemoveAll(Added(tags, candidate), candidate) == tags
  {
    if candidate != "" {
      RemoveAllAppend(tags, [candidate], candidate);
      assert RemoveAll([candidate], candidate) == RemoveAll([candidate][1..], candidate);
    }
  }

  /** Removing a tag keeps the list valid. */
  lemma RemoveKeepsValid(tags: seq<string>, t: string)
    requires ValidTags(tags)
    ensures ValidTags(RemoveAll(tags, t))
  {
    RemoveAllNoDuplicates(tags, t);
    var r := RemoveAll(tags, t);
    forall i | 0 <= i < |r|
      ensures r[i] != "" && IsTrimmed(r[i])
    {
      var k :| 0 <= k < |tags| && tags[k] == r[i];
    }
  }

  /** The suggestions are valid tags themselves. */
  lemma SuggestionsAreTrimmed(s: string)
    requires s in Suggestions
    ensures s != "" && IsTrimmed(s)
  {
  }

  class CreateNoteForm {
    var isLoading: bool
    var tags: seq<string>
    var newTag: string
    var formData: map<string, string>

    predicate Valid()
      reads this
    {
      ValidTags(tags)
    }

    /** The initial state: no tags, an empty tag box, a private note. */
    constructor ()
      ensures Valid()
      ensures !isLoading && tags == [] && newTag == "" && formData == InitialFormData
    {
      isLoading := false;
      tags := [];
      newTag := "";
      formData := InitialFormData;
    }

    /** Typing into the tag box. */
    method SetNewTag(value: string)
      requires Valid()
      modifies this
      ensures Valid()
      ensures newTag == value
      ensures tags == old(tags) && formData == old(formData) && isLoading == old(isLoading)
    {
      newTag := value;
    }

    /** `addTag`: the trimmed text is appended and the box cleared when it
        is non-empty and new; otherwise nothing changes. */
    method AddTag()
      requires Valid()
      modifies this
      ensures Valid()
      ensures var t := Trim(old(newTag));
        if t != "" && t !in old(tags) then tags == old(tags) + [t] && newTag == ""
        else tags == old(tags) && newTag == old(newTag)
      ensures formData == old(formData) && isLoading == old(isLoading)
    {
      var t := Trim(newTag);
      TrimmedIffFixed(newTag);
      AddedKeepsValid(tags, t);
      if t != "" && t !in tags {
        tags := tags + [t];
        newTag := "";
      }
    }

    /** `removeTag(t)`: every copy of `t` goes, the rest keep their order. */
    method RemoveTag(t: string)
      requires Valid()
      modifies this
      ensures Valid()
      ensures tags == RemoveAll(old(tags), t) && t !in tags
      ensures IsSubseq(tags, old(tags))
      ensures t !in old(tags) ==> tags == old(tags)
      ensures newTag == old(newTag) && formData == old(formData) && isLoading == old(isLoading)
    {
      RemoveKeepsValid(tags, t);
      tags := RemoveAll(tags, t);
    }

    /** `handleKeyPress`: Enter is swallowed and adds the tag; any other
        key passes through and changes nothing. */
    method HandleKeyPress(key: string) returns (prevented: bool)
      requires Valid()
      modifies this
      ensures Valid()
      ensures prevented <==> key == "Enter"
      ensures key == "Enter" ==> var t := Trim(old(newTag));
        if t != "" && t !in old(tags) then tags == old(tags) + [t] && newTag == ""
        else tags == old(tags) && newTag == old(newTag)
      ensures key != "Enter" ==> tags == old(tags) && newTag == old(newTag)
      ensures formData == old(formData) && isLoading == old(isLoading)
    {
      prevented := key == "Enter";
      if prevented {
        AddTag();
      }
    }

    /** A click on a suggestion chip appends it unless it is already a tag;
        the tag box is left as it is. */
    method ClickSuggestion(suggestion: string)
      requires Valid() && suggestion in Suggestions
      modifies this
      ensures Valid()
      ensures tags == (if suggestion in old(tags) then old(tags) else old(tags) + [suggestion])
      ensures tags == Added(old(tags), suggestion)
      ensures newTag == old(newTag) && formData == old(formData) && isLoading == old(isLoading)
    {
      SuggestionsAreTrimmed(suggestion);
      AddedKeepsValid(tags, suggestion);
      if suggestion !in tags {
        tags := tags + [suggestion];
      }
    }

    /** `handleInputChange(field, value)`: that one entry of `formData` is
        set (added if new); the tag state is untouched. */
    method HandleInputChange(field: string, value: string)
      requires Valid()
      modifies this
      ensures Valid()
      ensures formData == old(formData)[field := value]
      ensures forall f :: f in old(formData) && f != field ==> f in formData && formData[f] == old(formData)[f]
      ensures tags == old(tags) && newTag == old(newTag) && isLoading == old(isLoading)
    {
      formData := formData[field := value];
    }
  }
}
