/**
 * The mood-board panel: boards that can be liked, and a creation form whose
 * submission puts a new, empty board at the top of the list.
 */
module MoodBoard {
  datatype MoodItem = MoodItem(id: string, kind: string, content: string, x: int, y: int)

  datatype Board = Board(id: string, title: string, items: seq<MoodItem>, era: string, likes: int,
                         isLiked: bool, creator: string)

  /** The creation form (`Partial<MoodBoard>` holding a title, an era and no items). */
  datatype Draft = Draft(title: string, era: string)

  const DefaultEra: string := "midnights"
  const EmptyDraft: Draft := Draft("", DefaultEra)

  /** The two sample boards (item contents shortened). */
  const SampleBoards: seq<Board> := [
    Board("1", "Folklore Cabin Vibes", [
      MoodItem("1", "image", "photo-1441974231531", 20, 20),
      MoodItem("2", "text", "cozy autumn mornings", 60, 15),
      MoodItem("3", "color", "#708090", 15, 60)], "folklore", 234, false, "folklore_stan"),
    Board("2", "Midnights Purple Dreams", [
      MoodItem("1", "image", "photo-1506905925346", 25, 25),
      MoodItem("2", "text", "3am thoughts", 65, 20)], "midnights", 567, true, "lavender_haze")
  ]

  /**
   * `handleCreateBoard` with id `id` (the current time in the page): nothing
   * without a title; otherwise a board by 'You' with no items, likes or like, in
   * the draft's era or 'midnights' when that is empty, goes first, and the form
   * is reset.
   */
  function CreateBoard(boards: seq<Board>, draft: Draft, id: string): (r: (seq<Board>, Draft))
    ensures draft.title == "" ==> r == (boards, draft)
    ensures draft.title != "" ==>
              && |r.0| == |boards| + 1 && r.0[1..] == boards
              && r.0[0].id == id && r.0[0].title == draft.title
              && r.0[0].era == (if draft.era != "" then draft.era else DefaultEra)
              && r.0[0].items == [] && r.0[0].likes == 0 && !r.0[0].isLiked && r.0[0].creator == "You"
              && r.1 == EmptyDraft
  {
    if draft.title == "" then (boards, draft)
    else
      var board := Board(id, draft.title, [], if draft.era != "" then draft.era else DefaultEra, 0, false, "You");
      ([board] + boards, EmptyDraft)
  }

  /** `handleLike(boardId)`: the matching boards flip `isLiked` and move `likes` one step that way. */
  function ToggleLike(boards: seq<Board>, boardId: string): (r: seq<Board>)
    ensures |r| == |boards|
    ensures forall i :: 0 <= i < |r| && boards[i].id == boardId ==>
              && r[i].isLiked == !boards[i].isLiked
              && r[i].likes == boards[i].likes + (if boards[i].isLiked then -1 else 1)
              && r[i].(isLiked := boards[i].isLiked, likes := boards[i].likes) == boards[i]
    ensures forall i :: 0 <= i < |r| && boards[i].id != boardId ==> r[i] == boards[i]
  {
    if boards == [] then []
    else
      var b := boards[0];
      var head := if b.id == boardId then b.(isLiked := !b.isLiked, likes := if b.isLiked then b.likes - 1 else b.likes + 1)
                  else b;
      [head] + ToggleLike(boards[1..], boardId)
  }

  /** Liking twice restores the boards. */
  lemma ToggleLikeTwice(boards: seq<Board>, boardId: string)
    ensures ToggleLike(ToggleLike(boards, boardId), boardId) == boards
  {
    var r := ToggleLike(ToggleLike(boards, boardId), boardId);
    assert forall i :: 0 <= i < |r| ==> r[i] == boards[i];
  }

  /** The panel's state. */
  class MoodBoardPanel {
    var boards: seq<Board>
    var isCreating: bool
    var newBoard: Draft

    constructor ()
      ensures boards == SampleBoards && !isCreating && newBoard == EmptyDraft
    {
      boards := SampleBoards;
      isCreating := false;
      newBoard := EmptyDraft;
    }

    /** The create button; `id` is the creation time's decimal string. */
    method HandleCreateBoard(id: string)
      modifies this
      ensures (boards, newBoard) == CreateBoard(old(boards), old(newBoard), id)
      ensures isCreating == (old(newBoard).title == "" && old(isCreating))
    {
      if newBoard.title == "" {
        return;
      }
      var board := Board(id, newBoard.title, [], if newBoard.era != "" then newBoard.era else DefaultEra,
                         0, false, "You");
      boards := [board] + boards;
      newBoard := EmptyDraft;
      isCreating := false;
    }

    method HandleLike(boardId: string)
      modifies this
      ensures boards == ToggleLike(old(boards), boardId)
      ensures isCreating == old(isCreating) && newBoard == old(newBoard)
    {
      boards := ToggleLike(boards, boardId);
    }
  }
}
