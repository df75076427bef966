/** The skill editor of the add and edit pages (a list of tags grown one entry
    at a time from a text input) and the comma-separated skills text of the
    stand-alone talent form. */
module SkillTags {
  import opened Seqs
  import opened Text

  /** The keys that commit the skill input: Enter and comma. */
  predicate IsCommitKey(key: string) {
    key == "Enter" || key == ","
  }

  /** The tag a commit key appends, if any: the trimmed input, provided it is
      non-empty and not already a tag. */
  function TagToAdd(tags: seq<string>, input: string): (r: Option<string>)
    ensures r.Some? <==> Trim(input) != "" && Trim(input) !in tags
    ensures r.Some? ==> r.value == Trim(input)
  {
    var skill := Trim(input);
    if skill != "" && skill !in tags then Some(skill) else None
  }

  /** The tags after a commit key: the new tag at the end, or no change. */
  function AddTag(tags: seq<string>, input: string): seq<string> {
    match TagToAdd(tags, input)
    case Some(skill) => tags + [skill]
    case None => tags
  }

  /** The callback given to `filter` by tag removal. */
  function IsNot(skill: string): string -> bool {
    (s: string) => s != skill
  }

  /** `tags.filter(skill => skill !== skillToRemove)`. */
  function RemoveTag(tags: seq<string>, skill: string): seq<string> {
    Filter(tags, IsNot(skill))
  }

  /** Tags as the editor builds them: non-empty, trimmed and distinct. */
  predicate WellFormedTags(tags: seq<string>) {
    && NoDuplicates(tags)
    && forall k :: 0 <= k < |tags| ==> tags[k] != "" && Trim(tags[k]) == tags[k]
  }

  /** A commit appends the trimmed input exactly when it is new and non-empty. */
  lemma AddTagSpec(tags: seq<string>, input: string)
    ensures Trim(input) != "" && Trim(input) !in tags ==> AddTag(tags, input) == tags + [Trim(input)]
    ensures Trim(input) == "" || Trim(input) in tags ==> AddTag(tags, input) == tags
    ensures forall t :: t in AddTag(tags, input) <==> t in tags || (t == Trim(input) && t != "")
  {
  }

  /** A commit keeps the tags non-empty, trimmed and distinct. */
  lemma AddTagKeepsWellFormed(tags: seq<string>, input: string)
    requires WellFormedTags(tags)
    ensures WellFormedTags(AddTag(tags, input))
  {
    var r := AddTag(tags, input);
    if r != tags {
      var skill := Trim(input);
      TrimTrim(input);
      assert r == tags + [skill];
      forall i, j | 0 <= i < j < |r| ensures r[i] != r[j] {
        if j == |tags| {
          assert r[i] == tags[i];
        } else {
          assert r[i] == tags[i] && r[j] == tags[j];
        }
      }
      forall k | 0 <= k < |r| ensures r[k] != "" && Trim(r[k]) == r[k] {
        if k < |tags| {
          assert r[k] == tags[k];
        }
      }
    }
  }

  /** Committing the same input twice adds it once. */
  lemma AddTagIdempotent(tags: seq<string>, input: string)
    ensures AddTag(AddTag(tags, input), input) == AddTag(tags, input)
  {
  }

  /** Keeping the distinct elements the predicate keeps leaves them distinct. */
  lemma {:induction false} FilterNoDuplicates<T(!new)>(s: seq<T>, p: T -> bool)
    requires NoDuplicates(s)
    ensures NoDuplicates(Filter(s, p))
  {
    if s != [] {
      assert NoDuplicates(s[1..]) by {
        forall i, j | 0 <= i < j < |s[1..]| ensures s[1..][i] != s[1..][j] {
          assert s[1..][i] == s[i + 1] && s[1..][j] == s[j + 1];
        }
      }
      FilterNoDuplicates(s[1..], p);
      var rest := Filter(s[1..], p);
      if p(s[0]) {
        assert s[0] !in s[1..];
        assert s[0] !in rest;
        assert Filter(s, p) == [s[0]] + rest;
      }
    }
  }

  /** Removing a tag drops that skill and keeps every other tag, in order. */
  lemma RemoveTagSpec(tags: seq<string>, skill: string)
    ensures skill !in RemoveTag(tags, skill)
    ensures forall t :: t != skill ==> (t in RemoveTag(tags, skill) <==> t in tags)
    ensures IsSubsequence(RemoveTag(tags, skill), tags)
    ensures skill !in tags ==> RemoveTag(tags, skill) == tags
  {
    FilterIsSubsequence(tags, IsNot(skill));
    if skill !in tags {
      FilterAll(tags, IsNot(skill));
    }
  }

  /** Removing a tag keeps the tags non-empty, trimmed and distinct. */
  lemma RemoveTagKeepsWellFormed(tags: seq<string>, skill: string)
    requires WellFormedTags(tags)
    ensures WellFormedTags(RemoveTag(tags, skill))
  {
    FilterNoDuplicates(tags, IsNot(skill));
    var r := RemoveTag(tags, skill);
    forall k | 0 <= k < |r| ensures r[k] != "" && Trim(r[k]) == r[k] {
      assert r[k] in tags;
    }
  }

  /** Adding a new skill and then removing it gives the tags back. */
  lemma RemoveUndoesAdd(tags: seq<string>, input: string)
    requires Trim(input) !in tags
    ensures RemoveTag(AddTag(tags, input), Trim(input)) == tags
  {
    var skill := Trim(input);
    FilterAll(tags, IsNot(skill));
    if skill != "" {
      FilterOfConcat(tags, [skill], IsNot(skill));
      assert Filter([skill], IsNot(skill)) == [];
    }
  }

  /** The pieces of the text, each trimmed. */
  function TrimAll(pieces: seq<string>): (r: seq<string>)
    ensures |r| == |pieces|
    ensures forall k :: 0 <= k < |r| ==> r[k] == Trim(pieces[k])
  {
    seq(|pieces|, k requires 0 <= k < |pieces| => Trim(pieces[k]))
  }

  /** The callback given to `filter` after trimming: keep non-empty (truthy) skills. */
  function NonEmpty(): string -> bool {
    (s: string) => s != ""
  }

  /** `text.split(',').map(s => s.trim()).filter(s => s)`. */
  function SplitSkills(text: string): (r: seq<string>)
    ensures forall t :: t in r ==> t != "" && Trim(t) == t && ',' !in t
  {
    var pieces := Split(text, ',');
    var trimmed := TrimAll(pieces);
    forall k | 0 <= k < |trimmed| ensures Trim(trimmed[k]) == trimmed[k] && ',' !in trimmed[k] {
      TrimTrim(pieces[k]);
      TrimIsInfix(pieces[k]);
    }
    Filter(trimmed, NonEmpty())
  }

  /** The trimmed text is a contiguous part of the text. */
  lemma TrimIsInfix(s: string)
    ensures forall c :: c in Trim(s) ==> c in s
  {
    var t := TrimStart(s);
    forall c | c in Trim(s) ensures c in s {
      var k :| 0 <= k < |Trim(s)| && Trim(s)[k] == c;
      assert Trim(s)[k] == t[k];
      assert t[k] == s[|s| - |t| + k];
    }
  }

  /** Joining non-empty, trimmed skills without commas with "," and parsing the
      text gives the skills back. */
  lemma SplitSkillsJoin(skills: seq<string>)
    requires |skills| >= 1
    requires forall k :: 0 <= k < |skills| ==> skills[k] != "" && Trim(skills[k]) == skills[k] && ',' !in skills[k]
    ensures SplitSkills(Join(skills, ",")) == skills
  {
    SplitJoin(skills, ',');
    assert Split(Join(skills, ","), ',') == skills;
    var trimmed := TrimAll(skills);
    assert trimmed == skills;
    FilterAll(skills, NonEmpty());
  }

  /** A text of commas and blanks passes the form's skills check (its trim is
      not empty) yet parses to no skill at all. */
  lemma CommasOnlyParseToNothing()
    ensures Trim(", ,") != ""
    ensures SplitSkills(", ,") == []
  {
    CommasAreNotBlank();
    CommasParseToNothing();
  }

  lemma CommasAreNotBlank()
    ensures Trim(", ,") != ""
  {
    var text := ", ,";
    assert !IsSpace(text[0]);
    assert !AllSpace(text);
  }

  lemma CommasParseToNothing()
    ensures SplitSkills(", ,") == []
  {
    SplitCommas();
    assert AllSpace(" ") by {
      assert IsSpace(" "[0]);
    }
    BlankPiecesParseToNothing(["", " ", ""]);
  }

  /** ", ," split at its commas: an empty piece, a blank, an empty piece. */
  lemma SplitCommas()
    ensures Split(", ,", ',') == ["", " ", ""]
  {
    var text := ", ,";
    assert Split("", ',') == [""] by {
      assert FirstIndex("", ',') == -1;
    }
    assert Split(" ,", ',') == [" ", ""] by {
      var t := " ,";
      assert FirstIndex(t, ',') == 1 by {
        FirstIndexUnique(t, ',', 1);
      }
      assert t[..1] == " " && t[2..] == "";
    }
    assert FirstIndex(text, ',') == 0;
    assert text[..0] == "" && text[1..] == " ,";
  }

  /** Pieces made only of white space trim to empty skills, and the filter
      drops every one of them. */
  lemma BlankPiecesParseToNothing(pieces: seq<string>)
    requires forall k :: 0 <= k < |pieces| ==> AllSpace(pieces[k])
    ensures Filter(TrimAll(pieces), NonEmpty()) == []
  {
    FilterNone(TrimAll(pieces), NonEmpty());
  }
}
