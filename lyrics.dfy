/**
 * The lyrics page's search: the fixed song list filtered, case-insensitively,
 * by whether the search term occurs in a song's title, album or lyrics.
 */
module Lyrics {
  import opened Text

  datatype Song = Song(id: string, title: string, album: string, era: string, lyrics: string)

  /** The shipped songs (image links omitted). */
  const SongsData: seq<Song> := [
    Song("1", "Shake It Off", "1989", "1989",
         "I stay out too late, got nothing in my brain, that's what people say..."),
    Song("2", "Look What You Made Me Do", "reputation", "Reputation",
         "I don't like your little games, don't like your tilted stage..."),
    Song("3", "cardigan", "folklore", "Folklore",
         "Vintage tee, brand new phone, high heels on cobblestones..."),
    Song("4", "Anti-Hero", "Midnights", "Midnights",
         "I have this thing where I get older but just never wiser...")
  ]

  /** The filter's test: the lower-cased term occurs in the lower-cased title, album or lyrics. */
  predicate Matches(song: Song, term: string) {
    var t := ToLower(term);
    Includes(ToLower(song.title), t) || Includes(ToLower(song.album), t) || Includes(ToLower(song.lyrics), t)
  }

  /** `xs` is `ys` with some elements dropped, the rest in their order. */
  predicate SubsequenceOf<T(==)>(xs: seq<T>, ys: seq<T>) {
    if xs == [] then true
    else if ys == [] then false
    else (xs[0] == ys[0] && SubsequenceOf(xs[1..], ys[1..])) || SubsequenceOf(xs, ys[1..])
  }

  /** `songs.filter(song => Matches(song, term))`. */
  function FilterSongs(songs: seq<Song>, term: string): (r: seq<Song>)
    ensures forall s :: s in r <==> s in songs && Matches(s, term)
    ensures |r| <= |songs|
  {
    if songs == [] then []
    else if Matches(songs[0], term) then [songs[0]] + FilterSongs(songs[1..], term)
    else FilterSongs(songs[1..], term)
  }

  /** A matching song is kept as often as it occurs; a song that does not match, never. */
  lemma {:induction false} FilterCounts(songs: seq<Song>, term: string)
    ensures forall s :: multiset(FilterSongs(songs, term))[s] == if Matches(s, term) then multiset(songs)[s] else 0
  {
    if songs != [] {
      FilterCounts(songs[1..], term);
      assert songs == [songs[0]] + songs[1..];
    }
  }

  /** The result keeps the songs in their list order. */
  lemma {:induction false} FilterIsSubsequence(songs: seq<Song>, term: string)
    ensures SubsequenceOf(FilterSongs(songs, term), songs)
  {
    if songs != [] {
      FilterIsSubsequence(songs[1..], term);
      var rest := FilterSongs(songs[1..], term);
      if !Matches(songs[0], term) {
        SubsequenceDropHead(rest, songs);
      }
    }
  }

  lemma {:induction false} SubsequenceDropHead<T>(xs: seq<T>, ys: seq<T>)
    requires ys != [] && SubsequenceOf(xs, ys[1..])
    ensures SubsequenceOf(xs, ys)
  {
  }

  /** The empty term, like the initial state, shows every song. */
  lemma EmptyTermKeepsAll(songs: seq<Song>)
    ensures FilterSongs(songs, "") == songs
  {
    if songs != [] {
      IncludesEmpty(ToLower(songs[0].title));
      assert ToLower("") == "";
      EmptyTermKeepsAll(songs[1..]);
    }
  }

  /** A longer term narrows the search: whatever matches `longer` matches any block of it. */
  lemma MatchesNarrowing(song: Song, term: string, longer: string)
    requires Includes(longer, term) && Matches(song, longer)
    ensures Matches(song, term)
  {
    ToLowerPreservesIncludes(longer, term);
    var l, t := ToLower(longer), ToLower(term);
    if Includes(ToLower(song.title), l) {
      IncludesTransitive(ToLower(song.title), l, t);
    } else if Includes(ToLower(song.album), l) {
      IncludesTransitive(ToLower(song.album), l, t);
    } else {
      IncludesTransitive(ToLower(song.lyrics), l, t);
    }
  }

  /** Songs kept for a term are kept for every block of that term. */
  lemma FilterNarrowing(songs: seq<Song>, term: string, longer: string)
    requires Includes(longer, term)
    ensures forall s :: s in FilterSongs(songs, longer) ==> s in FilterSongs(songs, term)
  {
    forall s | s in FilterSongs(songs, longer)
      ensures s in FilterSongs(songs, term)
    {
      MatchesNarrowing(s, term, longer);
    }
  }

  /** The `era` field is not searched: songs differing only in era are kept or dropped together. */
  lemma EraNotSearched(song: Song, era: string, term: string)
    ensures Matches(song.(era := era), term) == Matches(song, term)
  {
  }

  /** Searching is case-insensitive in the ASCII letters. */
  lemma CaseInsensitive(song: Song, term: string)
    ensures Matches(song, ToLower(term)) == Matches(song, term)
  {
    assert ToLower(ToLower(term)) == ToLower(term);
  }

  /** On the shipped list, `"SHAKE"` finds "Shake It Off" through its title. */
  lemma ShakeFindsShakeItOff()
    ensures SongsData[0] in FilterSongs(SongsData, "SHAKE")
  {
    assert ToLower("SHAKE") == "shake";
    assert ToLower(SongsData[0].title)[0..5] == "shake";
    assert OccursAt(ToLower(SongsData[0].title), "shake", 0);
  }
}
