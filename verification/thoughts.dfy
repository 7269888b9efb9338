/** The journal (`useThoughts`): a list of thoughts, newest first, with add /
    update / delete by id, a case-insensitive text search and a mood filter. */
module Thoughts {
  import opened Common
  import opened Seqs

  /** The values of `MOODS`. */
  datatype Mood = Happy | Sad | Neutral | Excited | Anxious | Grateful

  /** A journal entry: `{ id, title, content, mood, createdAt }`; the title
      may be missing. */
  datatype Thought = Thought(id: string, title: Option<string>, content: string, mood: Mood, createdAt: Millis)

  /** The data `addThought` receives. */
  datatype ThoughtInput = ThoughtInput(title: Option<string>, content: string, mood: Mood)

  /** The `updates` object of `updateThought`: each field present overrides. */
  datatype ThoughtUpdate = ThoughtUpdate(
    id: Option<string>, title: Option<string>, content: Option<string>,
    mood: Option<Mood>, createdAt: Option<Millis>)

  function ThoughtId(t: Thought): string { t.id }

  /** The record `addThought` builds with fresh id `id` at instant `now`. */
  function NewThought(id: string, input: ThoughtInput, now: Millis): (t: Thought)
    ensures t.id == id && t.createdAt == now
    ensures t.title == input.title && t.content == input.content && t.mood == input.mood
  {
    Thought(id, input.title, input.content, input.mood, now)
  }

  /** `{ ...thought, ...updates }` */
  function Merge(t: Thought, u: ThoughtUpdate): (r: Thought)
    ensures u.id.Some? ==> r.id == u.id.value
    ensures u.id.None? ==> r.id == t.id
    ensures u.content.Some? ==> r.content == u.content.value
    ensures u.content.None? ==> r.content == t.content
    ensures u.mood.Some? ==> r.mood == u.mood.value
    ensures u.mood.None? ==> r.mood == t.mood
    ensures u.title.Some? ==> r.title == u.title
    ensures u.title.None? ==> r.title == t.title
    ensures u.createdAt.Some? ==> r.createdAt == u.createdAt.value
    ensures u.createdAt.None? ==> r.createdAt == t.createdAt
  {
    Thought(u.id.GetOr(t.id), if u.title.Some? then u.title else t.title, u.content.GetOr(t.content),
            u.mood.GetOr(t.mood), u.createdAt.GetOr(t.createdAt))
  }

  /** Merging the same updates twice is merging them once. */
  lemma MergeTwice(t: Thought, u: ThoughtUpdate)
    ensures Merge(Merge(t, u), u) == Merge(t, u)
  {
  }

  function MergeWith(u: ThoughtUpdate): Thought -> Thought {
    t => Merge(t, u)
  }

  /** The state after `updateThought(id, updates)`. */
  function Updated(thoughts: seq<Thought>, id: string, u: ThoughtUpdate): (r: seq<Thought>)
    ensures |r| == |thoughts|
    ensures forall i :: 0 <= i < |thoughts| && thoughts[i].id != id ==> r[i] == thoughts[i]
    ensures forall i :: 0 <= i < |thoughts| && thoughts[i].id == id ==> r[i] == Merge(thoughts[i], u)
  {
    UpdateKey(thoughts, ThoughtId, id, MergeWith(u))
  }

  /** The state after `deleteThought(id)`. */
  function Deleted(thoughts: seq<Thought>, id: string): (r: seq<Thought>)
    ensures forall t :: t in r <==> t in thoughts && t.id != id
    ensures |r| <= |thoughts|
  {
    RemoveKey(thoughts, ThoughtId, id)
  }

  /** Updates that leave the id alone: applying them twice is applying them
      once, and deleting afterwards is the same as deleting at once. */
  lemma UpdateIdempotent(thoughts: seq<Thought>, id: string, u: ThoughtUpdate)
    requires u.id.None?
    ensures Updated(Updated(thoughts, id, u), id, u) == Updated(thoughts, id, u)
    ensures Deleted(Updated(thoughts, id, u), id) == Deleted(thoughts, id)
  {
    forall t ensures ThoughtId(MergeWith(u)(t)) == ThoughtId(t) && MergeWith(u)(MergeWith(u)(t)) == MergeWith(u)(t) {
      MergeTwice(t, u);
    }
    UpdateKeyTwice(thoughts, ThoughtId, id, MergeWith(u));
    UpdateThenRemove(thoughts, ThoughtId, id, MergeWith(u));
  }

  /** Deleting an id no thought carries changes nothing. */
  lemma DeleteUnknown(thoughts: seq<Thought>, id: string)
    requires forall t :: t in thoughts ==> t.id != id
    ensures Deleted(thoughts, id) == thoughts
  {
    RemoveUnknownKey(thoughts, ThoughtId, id);
  }

  /** `toLowerCase` on one character, for the letters A to Z. */
  function LowerChar(c: char): (r: char)
    ensures 'A' <= c <= 'Z' ==> r as int == c as int + 32
    ensures !('A' <= c <= 'Z') ==> r == c
    ensures !('A' <= r <= 'Z')
  {
    if 'A' <= c <= 'Z' then (c as int + 32) as char else c
  }

  /** `toLowerCase`: lower-cases each character in place. */
  function Lower(s: string): (r: string)
    ensures |r| == |s|
    ensures forall i :: 0 <= i < |s| ==> r[i] == LowerChar(s[i])
  {
    if s == [] then [] else [LowerChar(s[0])] + Lower(s[1..])
  }

  /** Lower-casing twice is lower-casing once. */
  lemma LowerIdempotent(s: string)
    ensures Lower(Lower(s)) == Lower(s)
  {
    var once := Lower(s);
    var twice := Lower(once);
    forall i | 0 <= i < |s| ensures twice[i] == once[i] {
      assert twice[i] == LowerChar(once[i]);
    }
  }

  /** `q` occurs in `s` starting at position `i`. */
  predicate OccursAt(s: string, q: string, i: int) {
    0 <= i && i + |q| <= |s| && s[i..i + |q|] == q
  }

  /** `s.includes(q)`, as a scan from the left. */
  function Includes(s: string, q: string): (r: bool)
    ensures r <==> exists i :: OccursAt(s, q, i)
    decreases |s|
  {
    if |q| > |s| then
      assert forall i :: !OccursAt(s, q, i);
      false
    else if s[..|q|] == q then
      assert OccursAt(s, q, 0);
      true
    else
      var rest := Includes(s[1..], q);
      assert forall i :: OccursAt(s[1..], q, i) <==> OccursAt(s, q, i + 1) by {
        forall i ensures OccursAt(s[1..], q, i) <==> OccursAt(s, q, i + 1) {
          if 0 <= i && i + 1 + |q| <= |s| {
            assert s[1..][i..i + |q|] == s[i + 1..i + 1 + |q|];
          }
        }
      }
      assert !OccursAt(s, q, 0);
      assert (exists i :: OccursAt(s, q, i)) ==> exists i :: OccursAt(s[1..], q, i) by {
        if exists i :: OccursAt(s, q, i) {
          var i :| OccursAt(s, q, i);
          assert OccursAt(s[1..], q, i - 1);
        }
      }
      rest
  }

  /** An occurrence survives lower-casing both sides. */
  lemma OccursAtLower(s: string, q: string, i: int)
    requires OccursAt(s, q, i)
    ensures OccursAt(Lower(s), Lower(q), i)
  {
    forall k | 0 <= k < |q| ensures Lower(s)[i + k] == Lower(q)[k] {
      assert s[i + k] == s[i..i + |q|][k];
    }
  }

  /** The lower-cased text contains the lower-cased query. */
  predicate Contains(text: string, lowerQuery: string) {
    Includes(Lower(text), lowerQuery)
  }

  /** `thought.content.toLowerCase().includes(lowerQuery) ||
      thought.title?.toLowerCase().includes(lowerQuery)` */
  function MatchesQuery(lowerQuery: string): Thought -> bool {
    (t: Thought) => Contains(t.content, lowerQuery) || (t.title.Some? && Contains(t.title.value, lowerQuery))
  }

  /** `searchThoughts(query)`: every thought for an empty query, otherwise
      those whose content or title contains the query, ignoring case, in
      their original order. */
  function SearchThoughts(thoughts: seq<Thought>, query: string): (r: seq<Thought>)
    ensures query == "" ==> r == thoughts
    ensures query != "" ==> forall t :: t in r <==> t in thoughts && MatchesQuery(Lower(query))(t)
    ensures |r| <= |thoughts|
  {
    if query == "" then thoughts
    else Filter(thoughts, MatchesQuery(Lower(query)))
  }

  /** The search ignores the case of the query. */
  lemma SearchIgnoresQueryCase(thoughts: seq<Thought>, query: string)
    ensures SearchThoughts(thoughts, Lower(query)) == SearchThoughts(thoughts, query)
  {
    LowerIdempotent(query);
  }

  /** A thought whose content or title holds the query as typed is found. */
  lemma SearchFindsLiteral(thoughts: seq<Thought>, query: string, t: Thought)
    requires query != "" && t in thoughts
    requires Includes(t.content, query) || (t.title.Some? && Includes(t.title.value, query))
    ensures t in SearchThoughts(thoughts, query)
  {
    if Includes(t.content, query) {
      var i :| OccursAt(t.content, query, i);
      OccursAtLower(t.content, query, i);
    } else {
      var i :| OccursAt(t.title.value, query, i);
      OccursAtLower(t.title.value, query, i);
    }
  }

  function HasMood(m: Mood): Thought -> bool {
    (t: Thought) => t.mood == m
  }

  /** `filterByMood(mood)`: everything when no mood is chosen, otherwise the
      thoughts with that mood, in order. */
  function FilterByMood(thoughts: seq<Thought>, mood: Option<Mood>): (r: seq<Thought>)
    ensures mood == None ==> r == thoughts
    ensures mood.Some? ==> forall t :: t in r <==> t in thoughts && t.mood == mood.value
    ensures |r| <= |thoughts|
  {
    match mood
    case None => thoughts
    case Some(m) => Filter(thoughts, HasMood(m))
  }

  /** The hook's state: the `thoughts` list, newest first. */
  class Journal {
    var thoughts: seq<Thought>

    constructor ()
      ensures thoughts == []
    {
      thoughts := [];
    }

    /** `addThought(thoughtData)` with fresh id `id` at instant `now`. */
    method AddThought(id: string, thoughtData: ThoughtInput, now: Millis) returns (newThought: Thought)
      modifies this
      ensures newThought == NewThought(id, thoughtData, now)
      ensures thoughts == [newThought] + old(thoughts)
    {
      newThought := Thought(id, thoughtData.title, thoughtData.content, thoughtData.mood, now);
      thoughts := [newThought] + thoughts;
    }

    /** `updateThought(id, updates)` */
    method UpdateThought(id: string, updates: ThoughtUpdate)
      modifies this
      ensures thoughts == Updated(old(thoughts), id, updates)
    {
      thoughts := UpdateKey(thoughts, ThoughtId, id, MergeWith(updates));
    }

    /** `deleteThought(id)` */
    method DeleteThought(id: string)
      modifies this
      ensures thoughts == Deleted(old(thoughts), id)
    {
      thoughts := RemoveKey(thoughts, ThoughtId, id);
    }
  }
}
