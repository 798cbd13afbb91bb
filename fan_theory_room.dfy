/**
 * The fan-theory room: a list of theory threads that can be voted on, a form
 * that appends a new thread and, per thread, a form that appends a comment.
 * Each handler is a pure list transition followed by replacing the page state.
 */
module FanTheoryRoom {
  import opened Text

  datatype Comment = Comment(id: string, content: string, author: string, createdAt: string)

  datatype Thread = Thread(id: string, title: string, content: string, category: string, votes: int,
                           voteType: string, comments: seq<Comment>, createdAt: string)

  /** The new-thread form (`Partial<Thread>` holding only these four fields). */
  datatype Draft = Draft(title: string, content: string, category: string, voteType: string)

  const DefaultDraft: Draft := Draft("", "", "Music Video", "Hearts")

  /** The three threads the page starts with (texts shortened). */
  const SeedThreads: seq<Thread> := [
    Thread("1", "TTPD Fortnight Video: Chessboard Symbolism", "The black-and-white chessboard...",
           "Music Video", 67, "Hearts",
           [Comment("c1", "The typewriter font in the video screams poetry!...", "PoetSwiftie", "2025-07-17T14:20:00Z")],
           "2025-07-16T09:00:00Z"),
    Thread("2", "Reputation TV Easter Eggs in Recent Posts", "Taylor's recent Instagram post...",
           "Easter Egg", 123, "Snake Rings", [], "2025-07-15T18:45:00Z"),
    Thread("3", "Secret Message in TTPD Album Booklet", "The lyric booklet for TTPD...",
           "Secret Message", 45, "Hearts",
           [Comment("c2", "I saw that too!...", "EasterEggHunter", "2025-07-16T11:30:00Z")],
           "2025-07-15T10:15:00Z")
  ]

  /** `handleVote(id, k)`: adds `k` to the votes of every thread with that id. */
  function Vote(threads: seq<Thread>, id: string, k: int): (r: seq<Thread>)
    ensures |r| == |threads|
    ensures forall i :: 0 <= i < |r| && threads[i].id == id ==>
              r[i].votes == threads[i].votes + k && r[i] == threads[i].(votes := r[i].votes)
    ensures forall i :: 0 <= i < |r| && threads[i].id != id ==> r[i] == threads[i]
  {
    if threads == [] then []
    else
      var head := if threads[0].id == id then threads[0].(votes := threads[0].votes + k) else threads[0];
      [head] + Vote(threads[1..], id, k)
  }

  /** A vote for an id no thread has changes nothing. */
  lemma VoteUnknownId(threads: seq<Thread>, id: string, k: int)
    requires forall t :: t in threads ==> t.id != id
    ensures Vote(threads, id, k) == threads
  {
    var r := Vote(threads, id, k);
    assert forall i :: 0 <= i < |r| ==> r[i] == threads[i];
  }

  /** Voting `-k` after voting `k` restores the list. */
  lemma VoteUndo(threads: seq<Thread>, id: string, k: int)
    ensures Vote(Vote(threads, id, k), id, -k) == threads
  {
    var r := Vote(Vote(threads, id, k), id, -k);
    assert forall i :: 0 <= i < |r| ==> r[i] == threads[i];
  }

  /**
   * `handleSubmitThread`: with a title and content, appends one thread with id
   * `String(length + 1)`, no votes and no comments, and resets the form;
   * otherwise nothing changes.
   */
  function SubmitThread(threads: seq<Thread>, draft: Draft, now: string): (r: (seq<Thread>, Draft))
    ensures draft.title == "" || draft.content == "" ==> r == (threads, draft)
    ensures draft.title != "" && draft.content != "" ==>
              && |r.0| == |threads| + 1 && r.0[..|threads|] == threads
              && r.0[|threads|] == Thread(NatToString(|threads| + 1), draft.title, draft.content, draft.category,
                                          0, draft.voteType, [], now)
              && r.1 == DefaultDraft
  {
    if draft.title == "" || draft.content == "" then (threads, draft)
    else
      var created := Thread(NatToString(|threads| + 1), draft.title, draft.content, draft.category,
                            0, draft.voteType, [], now);
      (threads + [created], DefaultDraft)
  }

  /** Thread `i` (from 0) carries the id `String(i + 1)`. */
  predicate SequentialIds(threads: seq<Thread>) {
    forall i :: 0 <= i < |threads| ==> threads[i].id == NatToString(i + 1)
  }

  lemma SeedIdsSequential()
    ensures SequentialIds(SeedThreads)
  {
    assert NatToString(1) == "1" && NatToString(2) == "2" && NatToString(3) == "3";
  }

  /** Sequential ids are distinct. */
  lemma SequentialIdsDistinct(threads: seq<Thread>)
    requires SequentialIds(threads)
    ensures forall i, j :: 0 <= i < j < |threads| ==> threads[i].id != threads[j].id
  {
    forall i, j | 0 <= i < j < |threads|
      ensures threads[i].id != threads[j].id
    {
      if threads[i].id == threads[j].id {
        NatToStringInjective(i + 1, j + 1);
      }
    }
  }

  /** Votes keep the ids sequential. */
  lemma {:induction false} VoteKeepsIdsSequential(threads: seq<Thread>, id: string, k: int)
    requires SequentialIds(threads)
    ensures SequentialIds(Vote(threads, id, k))
  {
    var voted := Vote(threads, id, k);
    assert forall i :: 0 <= i < |voted| ==> voted[i].id == threads[i].id;
  }

  /** Appending a thread keeps the ids sequential. */
  lemma {:induction false} SubmitThreadKeepsIdsSequential(threads: seq<Thread>, draft: Draft, now: string)
    requires SequentialIds(threads)
    ensures SequentialIds(SubmitThread(threads, draft, now).0)
  {
  }

  /** Commenting keeps the ids sequential. */
  lemma {:induction false} SubmitCommentKeepsIdsSequential(threads: seq<Thread>, drafts: map<string, string>,
                                                          author: string, threadId: string, now: string)
    requires SequentialIds(threads)
    ensures SequentialIds(SubmitComment(threads, drafts, author, threadId, now).0)
  {
    var commented := SubmitComment(threads, drafts, author, threadId, now).0;
    if DraftFor(drafts, threadId) != "" && author != "" {
      AddCommentSpec(threads, threadId, drafts[threadId], author, now);
    }
    assert forall i :: 0 <= i < |commented| ==> commented[i].id == threads[i].id;
  }

  /** The comment draft of a thread, `''` when none was typed. */
  function DraftFor(drafts: map<string, string>, threadId: string): string {
    if threadId in drafts then drafts[threadId] else ""
  }

  /** The comment appended to `thread`: its id only counts the comments already there. */
  function NewComment(thread: Thread, content: string, author: string, now: string): Comment {
    Comment("c" + NatToString(|thread.comments| + 1), content, author, now)
  }

  function AddComment(threads: seq<Thread>, threadId: string, content: string, author: string, now: string)
    : (r: seq<Thread>)
    ensures |r| == |threads|
  {
    if threads == [] then []
    else
      var t := threads[0];
      var head := if t.id == threadId then t.(comments := t.comments + [NewComment(t, content, author, now)]) else t;
      [head] + AddComment(threads[1..], threadId, content, author, now)
  }

  /** The matching threads gain one comment at the end; every other thread is left as it was. */
  lemma {:induction false} AddCommentSpec(threads: seq<Thread>, threadId: string, content: string, author: string,
                                          now: string)
    ensures var r := AddComment(threads, threadId, content, author, now);
            && (forall i :: 0 <= i < |r| && threads[i].id != threadId ==> r[i] == threads[i])
            && (forall i :: 0 <= i < |r| && threads[i].id == threadId ==>
                  r[i] == threads[i].(comments := threads[i].comments + [NewComment(threads[i], content, author, now)]))
  {
    if threads != [] {
      var r := AddComment(threads, threadId, content, author, now);
      var rest := AddComment(threads[1..], threadId, content, author, now);
      AddCommentSpec(threads[1..], threadId, content, author, now);
      assert r[1..] == rest;
      forall i | 0 < i < |r| ensures r[i] == rest[i - 1] && threads[i] == threads[1..][i - 1] { }
    }
  }

  /**
   * `handleSubmitComment(threadId)`: with a comment draft and an author, appends
   * one comment to the matching thread, clears that thread's draft and the
   * author; otherwise nothing changes.
   */
  function SubmitComment(threads: seq<Thread>, drafts: map<string, string>, author: string, threadId: string,
                         now: string): (r: (seq<Thread>, map<string, string>, string))
    ensures DraftFor(drafts, threadId) == "" || author == "" ==> r == (threads, drafts, author)
    ensures DraftFor(drafts, threadId) != "" && author != "" ==>
              && r.0 == AddComment(threads, threadId, drafts[threadId], author, now)
              && r.1 == drafts[threadId := ""] && r.2 == ""
  {
    if DraftFor(drafts, threadId) == "" || author == "" then (threads, drafts, author)
    else (AddComment(threads, threadId, drafts[threadId], author, now), drafts[threadId := ""], "")
  }

  /**
   * Comment ids count the comments of the thread, so the first new comment on
   * the third seed thread reuses the id `'c2'` its seed comment already has.
   */
  lemma CommentIdCollision(drafts: map<string, string>, author: string, now: string)
    requires DraftFor(drafts, "3") != "" && author != ""
    ensures var t := SubmitComment(SeedThreads, drafts, author, "3", now).0[2];
            |t.comments| == 2 && t.comments[0].id == "c2" && t.comments[1].id == "c2"
  {
    var r := SubmitComment(SeedThreads, drafts, author, "3", now).0;
    assert SeedThreads[2].id == "3";
    AddCommentSpec(SeedThreads, "3", drafts["3"], author, now);
    assert NatToString(2) == "2";
    assert r[2].comments == SeedThreads[2].comments + [NewComment(SeedThreads[2], drafts["3"], author, now)];
  }

  /** The page's state. */
  class FanTheoryRoomPage {
    var threads: seq<Thread>
    var newThread: Draft
    /** Comment drafts keyed by thread id. */
    var newComment: map<string, string>
    var commentAuthor: string

    /** Thread ids stay `"1".."n"`, hence distinct. */
    ghost predicate Valid()
      reads this
    {
      SequentialIds(threads)
    }

    constructor ()
      ensures Valid()
      ensures threads == SeedThreads && newThread == DefaultDraft && newComment == map[] && commentAuthor == ""
    {
      threads := SeedThreads;
      newThread := DefaultDraft;
      newComment := map[];
      commentAuthor := "";
      SeedIdsSequential();
    }

    method HandleVote(threadId: string, increment: int)
      requires Valid()
      modifies this
      ensures Valid()
      ensures threads == Vote(old(threads), threadId, increment)
      ensures newThread == old(newThread) && newComment == old(newComment) && commentAuthor == old(commentAuthor)
    {
      threads := Vote(threads, threadId, increment);
    }

    method HandleSubmitThread(now: string)
      requires Valid()
      modifies this
      ensures Valid()
      ensures (threads, newThread) == SubmitThread(old(threads), old(newThread), now)
      ensures newComment == old(newComment) && commentAuthor == old(commentAuthor)
    {
      if newThread.title == "" || newThread.content == "" {
        return;
      }
      var newId := NatToString(|threads| + 1);
      SubmitThreadKeepsIdsSequential(threads, newThread, now);
      threads := threads + [Thread(newId, newThread.title, newThread.content, newThread.category, 0,
                                   newThread.voteType, [], now)];
      newThread := DefaultDraft;
    }

    method HandleSubmitComment(threadId: string, now: string)
      requires Valid()
      modifies this
      ensures Valid()
      ensures (threads, newComment, commentAuthor) == SubmitComment(old(threads), old(newComment), old(commentAuthor), threadId, now)
      ensures newThread == old(newThread)
    {
      if threadId !in newComment || newComment[threadId] == "" || commentAuthor == "" {
        return;
      }
      SubmitCommentKeepsIdsSequential(threads, newComment, commentAuthor, threadId, now);
      threads := AddComment(threads, threadId, newComment[threadId], commentAuthor, now);
      newComment := newComment[threadId := ""];
      commentAuthor := "";
    }
  }
}
