/** `extract_youtube_id` from SolnAI-agents/shared/utils/youtube.py: a bare
    id token, or the first of five URL patterns that matches, tried video
    patterns first. The regular expressions are written out as matchers:
    `re.search` tries the positions from left to right, and a pattern
    matches at a position when its literal prefix occurs there and the id
    characters that follow have the length the pattern asks for. */
module YouTube {
  import opened Base

  /** `[a-zA-Z0-9_-]`. */
  predicate IsIdChar(c: char)
  {
    IsAsciiLetter(c) || IsDigit(c) || c == '_' || c == '-'
  }

  predicate AllIdChars(s: string)
  {
    forall k :: 0 <= k < |s| ==> IsIdChar(s[k])
  }

  /** `re.match(r'^[a-zA-Z0-9_-]+$', s)`: `$` also matches before a final
      newline, so one trailing '\n' is allowed. The checks for '/' and '.'
      that follow in the source can never fail once this holds. */
  predicate IsBareToken(s: string)
  {
    || (|s| > 0 && AllIdChars(s))
    || (|s| > 1 && s[|s| - 1] == '\n' && AllIdChars(s[..|s| - 1]))
  }

  /** The length of the run of id characters starting at j. */
  function IdRun(s: string, j: nat): (n: nat)
    requires j <= |s|
    ensures j + n <= |s|
    ensures forall k :: j <= k < j + n ==> IsIdChar(s[k])
    ensures j + n < |s| ==> !IsIdChar(s[j + n])
    decreases |s| - j
  {
    if j == |s| || !IsIdChar(s[j]) then 0 else 1 + IdRun(s, j + 1)
  }

  const WatchPrefix := "youtube.com/watch?v="
  const ShortPrefix := "youtu.be/"
  const EmbedPrefix := "youtube.com/embed/"
  const VPrefix := "youtube.com/v/"
  const PlaylistPrefix := "youtube.com/playlist?list="
  const WatchQueryPrefix := "youtube.com/watch?"
  const ListMarker := "list="

  /** The five patterns, in the order the source tries them. */
  datatype Pattern = WatchOrShort | Embed | V | PlaylistList | WatchList

  /** `prefix([a-zA-Z0-9_-]{11})` at position i. */
  function ElevenAfter(s: string, prefix: string, i: nat): Option<string>
  {
    if OccursAt(s, prefix, i) && IdRun(s, i + |prefix|) >= 11
    then Some(s[i + |prefix|..i + |prefix| + 11]) else None
  }

  /** `prefix([a-zA-Z0-9_-]+)` at position i: the whole run, at least one
      character. */
  function RunAfter(s: string, prefix: string, i: nat): Option<string>
  {
    if OccursAt(s, prefix, i) && IdRun(s, i + |prefix|) >= 1
    then Some(s[i + |prefix|..i + |prefix| + IdRun(s, i + |prefix|)]) else None
  }

  /** The end of the line that starts at j: `.` does not match '\n'. */
  function LineEnd(s: string, j: nat): (e: nat)
    requires j <= |s|
    ensures j <= e <= |s|
    ensures forall k :: j <= k < e ==> s[k] != '\n'
    decreases |s| - j
  {
    if j == |s| || s[j] == '\n' then j else LineEnd(s, j + 1)
  }

  /** `.*list=([a-zA-Z0-9_-]+)` from j: the greedy `.*` backs off from
      the line's end, so the last "list=" before k that has an id character
      after it wins. */
  function LastList(s: string, j: nat, k: nat): Option<string>
    requires j <= k <= |s|
    decreases k - j
  {
    var here := RunAfter(s, ListMarker, k);
    if here.Some? then here
    else if k == j then None
    else LastList(s, j, k - 1)
  }

  /** Whether, and with which group, a pattern matches at position i. */
  function MatchAt(p: Pattern, s: string, i: nat): Option<string>
  {
    match p
    case WatchOrShort =>
      var w := ElevenAfter(s, WatchPrefix, i);
      if w.Some? then w else ElevenAfter(s, ShortPrefix, i)
    case Embed => ElevenAfter(s, EmbedPrefix, i)
    case V => ElevenAfter(s, VPrefix, i)
    case PlaylistList => RunAfter(s, PlaylistPrefix, i)
    case WatchList =>
      if OccursAt(s, WatchQueryPrefix, i) then
        var j := i + |WatchQueryPrefix|;
        LastList(s, j, LineEnd(s, j))
      else None
  }

  /** `re.search(pattern, s)` from position i on. */
  function SearchFrom(p: Pattern, s: string, i: nat): Option<string>
    requires i <= |s|
    decreases |s| - i
  {
    var m := MatchAt(p, s, i);
    if m.Some? then m else if i == |s| then None else SearchFrom(p, s, i + 1)
  }

  function Search(p: Pattern, s: string): Option<string>
  {
    SearchFrom(p, s, 0)
  }

  datatype IdType = Video | Playlist

  /** `extract_youtube_id`: the id's type and the id, or the ValueError's
      message. */
  function ExtractYoutubeId(s: string): Result<(IdType, string), string>
  {
    if IsBareToken(s) then Ok((if |s| == 11 then Video else Playlist, s))
    else if Search(WatchOrShort, s).Some? then Ok((Video, Search(WatchOrShort, s).value))
    else if Search(Embed, s).Some? then Ok((Video, Search(Embed, s).value))
    else if Search(V, s).Some? then Ok((Video, Search(V, s).value))
    else if Search(PlaylistList, s).Some? then Ok((Playlist, Search(PlaylistList, s).value))
    else if Search(WatchList, s).Some? then Ok((Playlist, Search(WatchList, s).value))
    else Err("Could not extract YouTube ID from: " + s)
  }

  // Searching
  // ---------------------------------------------------------------------

  /** A match at j with none between i and j is what the search returns. */
  lemma {:induction false} SearchFindsFirst(p: Pattern, s: string, i: nat, j: nat)
    requires i <= j <= |s| && MatchAt(p, s, j).Some?
    requires forall k :: i <= k < j ==> MatchAt(p, s, k).None?
    ensures SearchFrom(p, s, i) == MatchAt(p, s, j)
    decreases j - i
  {
    if i < j {
      SearchFindsFirst(p, s, i + 1, j);
    }
  }

  /** With no match from i on, the search fails. */
  lemma {:induction false} SearchNone(p: Pattern, s: string, i: nat)
    requires i <= |s|
    requires forall k :: i <= k <= |s| ==> MatchAt(p, s, k).None?
    ensures SearchFrom(p, s, i).None?
    decreases |s| - i
  {
    if i < |s| {
      SearchNone(p, s, i + 1);
    }
  }

  /** What a successful search returns is some position's match. */
  lemma {:induction false} SearchFound(p: Pattern, s: string, i: nat)
    requires i <= |s| && SearchFrom(p, s, i).Some?
    ensures exists k :: i <= k <= |s| && MatchAt(p, s, k) == SearchFrom(p, s, i)
    decreases |s| - i
  {
    if MatchAt(p, s, i).None? {
      SearchFound(p, s, i + 1);
    }
  }

  /** Starts with 'y' and has a '.' at index 5 or 7. */
  predicate LooksLikeYoutube(pre: string)
  {
    |pre| >= 9 && pre[0] == 'y' && (pre[5] == '.' || pre[7] == '.')
  }

  lemma {:induction false} WatchLooksLikeYoutube()
    ensures LooksLikeYoutube(WatchPrefix) && LooksLikeYoutube(WatchQueryPrefix)
  {
  }

  lemma {:induction false} ShortLooksLikeYoutube()
    ensures LooksLikeYoutube(ShortPrefix)
  {
  }

  lemma {:induction false} EmbedLooksLikeYoutube()
    ensures LooksLikeYoutube(EmbedPrefix) && LooksLikeYoutube(VPrefix)
  {
  }

  lemma {:induction false} PlaylistLooksLikeYoutube()
    ensures LooksLikeYoutube(PlaylistPrefix)
  {
  }

  /** "youtube.com/...": its only '.' is at index 7, and index 2 is not a
      'y', so no pattern can start inside it. */
  predicate DotOnlyAtSeven(pre: string)
  {
    |pre| > 8 && pre[7] == '.' && pre[2] != 'y' && '.' !in pre[..7] && '.' !in pre[8..]
  }

  lemma {:induction false} LongPrefixesDotOnlyAtSeven()
    ensures DotOnlyAtSeven(EmbedPrefix) && DotOnlyAtSeven(VPrefix) && DotOnlyAtSeven(PlaylistPrefix)
  {
    assert EmbedPrefix[..7] == "youtube" && EmbedPrefix[8..] == "com/embed/";
    assert VPrefix[..7] == "youtube" && VPrefix[8..] == "com/v/";
    assert PlaylistPrefix[..7] == "youtube" && PlaylistPrefix[8..] == "com/playlist?list=";
  }

  /** A literal like that occurring at i puts a 'y' at i and a '.' five or
      seven characters on. */
  lemma {:induction false} PrefixYAndDot(s: string, pre: string, i: nat)
    requires OccursAt(s, pre, i) && LooksLikeYoutube(pre)
    ensures i + 7 < |s| && s[i] == 'y' && (s[i + 5] == '.' || s[i + 7] == '.')
  {
    assert s[i..i + |pre|] == pre;
    assert s[i] == pre[0] && s[i + 5] == pre[5] && s[i + 7] == pre[7];
  }

  /** Every pattern begins with "youtu" and has a '.' soon after, so a
      match needs a 'y' where it starts and a '.' five or seven characters
      on. */
  lemma {:induction false} MatchNeedsYAndDot(p: Pattern, s: string, i: nat)
    requires MatchAt(p, s, i).Some?
    ensures i + 7 < |s| && s[i] == 'y' && (s[i + 5] == '.' || s[i + 7] == '.')
  {
    match p
    case WatchOrShort =>
      if ElevenAfter(s, WatchPrefix, i).Some? {
        WatchLooksLikeYoutube();
        PrefixYAndDot(s, WatchPrefix, i);
      } else {
        ShortLooksLikeYoutube();
        PrefixYAndDot(s, ShortPrefix, i);
      }
    case Embed =>
      EmbedLooksLikeYoutube();
      PrefixYAndDot(s, EmbedPrefix, i);
    case V =>
      EmbedLooksLikeYoutube();
      PrefixYAndDot(s, VPrefix, i);
    case PlaylistList =>
      PlaylistLooksLikeYoutube();
      PrefixYAndDot(s, PlaylistPrefix, i);
    case WatchList =>
      WatchLooksLikeYoutube();
      PrefixYAndDot(s, WatchQueryPrefix, i);
  }

  /** One literal where another differs at index k rules the other out. */
  lemma {:induction false} DiffersAt(s: string, i: nat, a: string, b: string, k: nat)
    requires OccursAt(s, a, i) && k < |a| && k < |b| && a[k] != b[k]
    ensures !OccursAt(s, b, i)
  {
    assert s[i + k] == s[i..i + |a|][k];
  }

  /** In u, a literal and a tail without '.', where u has no 'y', a
      pattern can only match where the literal starts. */
  lemma {:induction false} NoMatchAround(p: Pattern, s: string, u: string, pre: string, tail: string)
    requires s == u + pre + tail && 'y' !in u
    requires DotOnlyAtSeven(pre) && '.' !in tail
    requires MatchAt(p, s, |u|).None?
    ensures Search(p, s).None?
  {
    var i := |u|;
    forall k | 0 <= k <= |s|
      ensures MatchAt(p, s, k).None?
    {
      if MatchAt(p, s, k).Some? {
        MatchNeedsYAndDot(p, s, k);
        if k > i {
          DotPositions(s, u, pre, tail, if s[k + 5] == '.' then k + 5 else k + 7);
        }
      }
    }
    SearchNone(p, s, 0);
  }

  /** In u + pre + tail, a '.' at or after |u| is pre's own, at |u| + 7. */
  lemma {:induction false} DotPositions(s: string, u: string, pre: string, tail: string, m: nat)
    requires s == u + pre + tail && DotOnlyAtSeven(pre) && '.' !in tail
    requires |u| <= m < |s| && s[m] == '.'
    ensures m == |u| + 7
  {
  }

  /** Where the text has no 'y' before position |u|, a match there is the
      search's result. */
  lemma {:induction false} FirstMatchAt(p: Pattern, s: string, u: string)
    requires u <= s && 'y' !in u && MatchAt(p, s, |u|).Some?
    ensures Search(p, s) == MatchAt(p, s, |u|)
  {
    forall k | 0 <= k < |u|
      ensures MatchAt(p, s, k).None?
    {
      assert s[k] == u[k];
      if MatchAt(p, s, k).Some? {
        MatchNeedsYAndDot(p, s, k);
      }
    }
    SearchFindsFirst(p, s, 0, |u|);
  }

  /** n id characters from j make the run at least n long. */
  lemma {:induction false} IdRunAtLeast(s: string, j: nat, n: nat)
    requires j + n <= |s| && forall k :: j <= k < j + n ==> IsIdChar(s[k])
    ensures IdRun(s, j) >= n
    decreases n
  {
    if n > 0 {
      IdRunAtLeast(s, j + 1, n - 1);
    }
  }

  /** prefix + id at |u| gives `prefix([a-zA-Z0-9_-]{11})` the id. */
  lemma {:induction false} ElevenAt(s: string, u: string, prefix: string, id: string, rest: string)
    requires s == u + prefix + id + rest && |id| == 11 && AllIdChars(id)
    ensures ElevenAfter(s, prefix, |u|) == Some(id)
  {
    var i := |u|;
    var j := i + |prefix|;
    assert s[i..j] == prefix;
    assert s[j..j + 11] == id;
    IdRunAtLeast(s, j, 11);
  }

  // ---------------------------------------------------------------------
  // What extract_youtube_id returns
  // ---------------------------------------------------------------------

  /** A bare token of id characters is a video id when it has 11
      characters and a playlist id otherwise. */
  lemma {:induction false} BareTokenClassified(s: string)
    requires |s| > 0 && AllIdChars(s)
    ensures ExtractYoutubeId(s) == Ok((if |s| == 11 then Video else Playlist, s))
  {
  }

  /** `$` lets a trailing newline through: ten id characters and '\n'
      count as an 11-character video id that ends in a newline. */
  lemma {:induction false} BareTokenTrailingNewline(t: string)
    requires |t| == 10 && AllIdChars(t)
    ensures ExtractYoutubeId(t + "\n") == Ok((Video, t + "\n"))
  {
    assert (t + "\n")[..10] == t;
  }

  lemma {:induction false} LastListShape(s: string, j: nat, k: nat)
    requires j <= k <= |s| && LastList(s, j, k).Some?
    ensures AllIdChars(LastList(s, j, k).value) && |LastList(s, j, k).value| >= 1
    decreases k - j
  {
    if RunAfter(s, ListMarker, k).None? {
      LastListShape(s, j, k - 1);
    }
  }

  lemma {:induction false} ElevenShape(s: string, prefix: string, k: nat)
    requires ElevenAfter(s, prefix, k).Some?
    ensures AllIdChars(ElevenAfter(s, prefix, k).value) && |ElevenAfter(s, prefix, k).value| == 11
  {
  }

  lemma {:induction false} RunShape(s: string, prefix: string, k: nat)
    requires RunAfter(s, prefix, k).Some?
    ensures AllIdChars(RunAfter(s, prefix, k).value) && |RunAfter(s, prefix, k).value| >= 1
  {
  }

  /** A video pattern's group has 11 id characters, a playlist pattern's
      at least one. */
  lemma {:induction false} MatchShape(p: Pattern, s: string, k: nat)
    requires MatchAt(p, s, k).Some?
    ensures AllIdChars(MatchAt(p, s, k).value) && |MatchAt(p, s, k).value| >= 1
    ensures p.WatchOrShort? || p.Embed? || p.V? ==> |MatchAt(p, s, k).value| == 11
  {
    match p
    case WatchOrShort =>
      if ElevenAfter(s, WatchPrefix, k).Some? {
        ElevenShape(s, WatchPrefix, k);
      } else {
        ElevenShape(s, ShortPrefix, k);
      }
    case Embed => ElevenShape(s, EmbedPrefix, k);
    case V => ElevenShape(s, VPrefix, k);
    case PlaylistList => RunShape(s, PlaylistPrefix, k);
    case WatchList =>
      var j := k + |WatchQueryPrefix|;
      LastListShape(s, j, LineEnd(s, j));
  }

  lemma {:induction false} SearchShape(p: Pattern, s: string)
    requires Search(p, s).Some?
    ensures AllIdChars(Search(p, s).value) && |Search(p, s).value| >= 1
    ensures p.WatchOrShort? || p.Embed? || p.V? ==> |Search(p, s).value| == 11
  {
    SearchFound(p, s, 0);
    var k :| 0 <= k <= |s| && MatchAt(p, s, k) == Search(p, s);
    MatchShape(p, s, k);
  }

  /** Outside the bare-token case, a video id has 11 id characters and a
      playlist id at least one. */
  lemma {:induction false} ExtractedShape(s: string)
    requires !IsBareToken(s) && ExtractYoutubeId(s).Ok?
    ensures var (kind, id) := ExtractYoutubeId(s).value;
      && AllIdChars(id) && |id| >= 1
      && (kind == Video ==> |id| == 11)
  {
    if Search(WatchOrShort, s).Some? {
      SearchShape(WatchOrShort, s);
    } else if Search(Embed, s).Some? {
      SearchShape(Embed, s);
    } else if Search(V, s).Some? {
      SearchShape(V, s);
    } else if Search(PlaylistList, s).Some? {
      SearchShape(PlaylistList, s);
    } else {
      SearchShape(WatchList, s);
    }
  }

  /** A text with no 'y' that is not a bare token matches nothing and
      raises ValueError. */
  lemma {:induction false} NoMatchRaises(s: string)
    requires !IsBareToken(s) && 'y' !in s
    ensures ExtractYoutubeId(s) == Err("Could not extract YouTube ID from: " + s)
  {
    forall p: Pattern, k | 0 <= k <= |s|
      ensures MatchAt(p, s, k).None?
    {
      if MatchAt(p, s, k).Some? {
        MatchNeedsYAndDot(p, s, k);
      }
    }
    SearchNone(WatchOrShort, s, 0);
    SearchNone(Embed, s, 0);
    SearchNone(V, s, 0);
    SearchNone(PlaylistList, s, 0);
    SearchNone(WatchList, s, 0);
  }

  /** A text with a '.' before its last character is never a bare token. */
  lemma {:induction false} DotNotBare(s: string, i: nat)
    requires i < |s| - 1 && s[i] == '.'
    ensures !IsBareToken(s)
  {
    assert s[..|s| - 1][i] == '.';
  }

  /** watch?v= and youtu.be/ URLs give the 11-character video id that
      follows, whatever comes after it: a watch URL that also carries
      `list=` is still a video. */
  lemma {:induction false} WatchUrlIsVideo(u: string, prefix: string, id: string, rest: string)
    requires prefix == WatchPrefix || prefix == ShortPrefix
    requires 'y' !in u && |id| == 11 && AllIdChars(id)
    ensures ExtractYoutubeId(u + prefix + id + rest) == Ok((Video, id))
  {
    var s := u + prefix + id + rest;
    var i := |u|;
    ElevenAt(s, u, prefix, id, rest);
    if prefix == ShortPrefix {
      DiffersAt(s, i, ShortPrefix, WatchPrefix, 5);
    }
    assert u <= s;
    FirstMatchAt(WatchOrShort, s, u);
    assert s[i + 5] == prefix[5] && s[i + 7] == prefix[7];
    DotNotBare(s, if prefix == ShortPrefix then i + 5 else i + 7);
  }

  /** Id characters never include '.'. */
  lemma {:induction false} IdCharsHaveNoDot(t: string)
    requires AllIdChars(t)
    ensures '.' !in t
  {
  }

  /** Neither watch?v= nor youtu.be/ starts where one of the other
      literals does. */
  lemma {:induction false} NotWatchOrShortAt(s: string, i: nat, prefix: string)
    requires prefix in {EmbedPrefix, VPrefix, PlaylistPrefix} && OccursAt(s, prefix, i)
    ensures MatchAt(WatchOrShort, s, i).None?
  {
    DiffersAt(s, i, prefix, WatchPrefix, 12);
    DiffersAt(s, i, prefix, ShortPrefix, 5);
  }

  /** After u (no 'y'), one of the longer literals and id characters,
      watch?v= and youtu.be/ match nowhere. */
  lemma {:induction false} NoWatchOrShortAfter(s: string, u: string, prefix: string, tail: string)
    requires prefix in {EmbedPrefix, VPrefix, PlaylistPrefix}
    requires s == u + prefix + tail && 'y' !in u && AllIdChars(tail)
    ensures Search(WatchOrShort, s).None?
  {
    LongPrefixesDotOnlyAtSeven();
    IdCharsHaveNoDot(tail);
    assert s[|u|..|u| + |prefix|] == prefix;
    NotWatchOrShortAt(s, |u|, prefix);
    NoMatchAround(WatchOrShort, s, u, prefix, tail);
  }

  /** ... and embed/ matches nowhere after v/ or playlist?list=. */
  lemma {:induction false} NoEmbedAfter(s: string, u: string, prefix: string, tail: string)
    requires prefix in {VPrefix, PlaylistPrefix}
    requires s == u + prefix + tail && 'y' !in u && AllIdChars(tail)
    ensures Search(Embed, s).None?
  {
    LongPrefixesDotOnlyAtSeven();
    IdCharsHaveNoDot(tail);
    assert s[|u|..|u| + |prefix|] == prefix;
    DiffersAt(s, |u|, prefix, EmbedPrefix, 12);
    NoMatchAround(Embed, s, u, prefix, tail);
  }

  /** ... and v/ matches nowhere after playlist?list=. */
  lemma {:induction false} NoVAfterPlaylist(s: string, u: string, tail: string)
    requires s == u + PlaylistPrefix + tail && 'y' !in u && AllIdChars(tail)
    ensures Search(V, s).None?
  {
    LongPrefixesDotOnlyAtSeven();
    IdCharsHaveNoDot(tail);
    assert s[|u|..|u| + |PlaylistPrefix|] == PlaylistPrefix;
    DiffersAt(s, |u|, PlaylistPrefix, VPrefix, 12);
    NoMatchAround(V, s, u, PlaylistPrefix, tail);
  }

  /** embed/ and v/ URLs that end with the 11-character id give that
      video id. */
  lemma {:induction false} EmbedUrlIsVideo(u: string, prefix: string, id: string)
    requires prefix == EmbedPrefix || prefix == VPrefix
    requires 'y' !in u && |id| == 11 && AllIdChars(id)
    ensures ExtractYoutubeId(u + prefix + id) == Ok((Video, id))
  {
    var s := u + prefix + id;
    var i := |u|;
    NoWatchOrShortAfter(s, u, prefix, id);
    if prefix == VPrefix {
      NoEmbedAfter(s, u, prefix, id);
    }
    assert s == u + prefix + id + "";
    ElevenAt(s, u, prefix, id, "");
    assert s[i + 7] == prefix[7];
    DotNotBare(s, i + 7);
    assert u <= s;
    FirstMatchAt(if prefix == EmbedPrefix then Embed else V, s, u);
  }

  /** The run of list id characters that ends the text is the group of
      `youtube.com/playlist?list=([a-zA-Z0-9_-]+)`. */
  lemma {:induction false} PlaylistMatch(s: string, u: string, list: string)
    requires s == u + PlaylistPrefix + list && 'y' !in u && |list| >= 1 && AllIdChars(list)
    ensures Search(PlaylistList, s) == Some(list)
  {
    RunAtEnd(s, u, PlaylistPrefix, list);
    assert u <= s;
    FirstMatchAt(PlaylistList, s, u);
  }

  /** A literal followed by id characters up to the end of the text
      makes the run after the literal exactly those characters. */
  lemma {:induction false} RunAtEnd(s: string, u: string, prefix: string, t: string)
    requires s == u + prefix + t && |t| >= 1 && AllIdChars(t)
    ensures RunAfter(s, prefix, |u|) == Some(t)
  {
    var i := |u|;
    var n := |prefix|;
    assert s[i..i + n] == prefix;
    IdRunAtLeast(s, i + n, |t|);
    assert s[i + n..i + n + |t|] == t;
  }

  /** A playlist?list= URL that ends with the list id gives that
      playlist id. */
  lemma {:induction false} PlaylistUrlIsPlaylist(u: string, list: string)
    requires 'y' !in u && |list| >= 1 && AllIdChars(list)
    ensures ExtractYoutubeId(u + PlaylistPrefix + list) == Ok((Playlist, list))
  {
    var s := u + PlaylistPrefix + list;
    NoWatchOrShortAfter(s, u, PlaylistPrefix, list);
    NoEmbedAfter(s, u, PlaylistPrefix, list);
    NoVAfterPlaylist(s, u, list);
    PlaylistMatch(s, u, list);
    PrefixedNotBare(s, u, PlaylistPrefix, list);
    ExtractPlaylistList(s, list);
  }

  /** Text with a literal whose eighth character is '.' before at least
      one more character is not a bare token. */
  lemma {:induction false} PrefixedNotBare(s: string, u: string, prefix: string, tail: string)
    requires s == u + prefix + tail && |prefix| > 7 && prefix[7] == '.' && |tail| >= 1
    ensures !IsBareToken(s)
  {
    assert s[|u| + 7] == prefix[7];
    DotNotBare(s, |u| + 7);
  }

  lemma {:induction false} ExtractPlaylistList(s: string, list: string)
    requires !IsBareToken(s) && Search(WatchOrShort, s).None? && Search(Embed, s).None? && Search(V, s).None?
    requires Search(PlaylistList, s) == Some(list)
    ensures ExtractYoutubeId(s) == Ok((Playlist, list))
  {
  }
}
