/** Accepting a video reference (`extractVideoId`): the first match of the link pattern
    `(?:youtube\.com\/(?:[^\/]+\/.+\/|(?:v|e(?:mbed)?)\/|.*[?&]v=)|youtu\.be\/)([^"&?\/\s]{11})`
    yields its 11-character capture; failing that, an input of exactly 11 characters is taken as it is.
    The pattern is modelled as JavaScript's backtracking matcher runs it: leftmost start position first,
    alternatives in order, greedy repetitions tried from longest to shortest. */
module VideoRef {
  import opened Wrappers
  import opened Strings

  const IdLength: nat := 11

  /** `[^"&?\/\s]`: a character allowed in the captured identifier. */
  predicate IsIdChar(c: char)
  {
    c != '"' && c != '&' && c != '?' && c != '/' && !IsJsSpace(c)
  }

  predicate IsIdChars(v: string)
  {
    forall k :: 0 <= k < |v| ==> IsIdChar(v[k])
  }

  /** `([^"&?\/\s]{11})` at index `k`: the capture, when the next 11 characters are all allowed. */
  function IdAt(s: string, k: int): (r: Option<string>)
    ensures r.Some? ==> |r.value| == IdLength && IsIdChars(r.value)
    ensures r.Some? ==> OccursAt(s, r.value, k)
    ensures r.Some? ==> 0 <= k && k + IdLength <= |s|
  {
    if 0 <= k && k + IdLength <= |s| && IsIdChars(s[k..k + IdLength]) then Some(s[k..k + IdLength]) else None
  }

  /** The first index at or after `k` holding a line terminator (which `.` does not match), or `|s|`. */
  function RunEnd(s: string, k: nat): (e: nat)
    requires k <= |s|
    ensures k <= e <= |s|
    ensures forall j :: k <= j < e ==> !IsLineTerminator(s[j])
    ensures e < |s| ==> IsLineTerminator(s[e])
    decreases |s| - k
  {
    if k == |s| || IsLineTerminator(s[k]) then k else RunEnd(s, k + 1)
  }

  /** The first index at or after `k` holding '/', or `|s|`. */
  function FirstSlash(s: string, k: nat): (e: nat)
    requires k <= |s|
    ensures k <= e <= |s|
    ensures forall j :: k <= j < e ==> s[j] != '/'
    ensures e < |s| ==> s[e] == '/'
    decreases |s| - k
  {
    if k == |s| || s[k] == '/' then k else FirstSlash(s, k + 1)
  }

  /** One of `marks` (all of length `wlen`) occurs in `s` at index `m`. */
  predicate MarkAt(s: string, m: int, marks: set<string>, wlen: nat)
  {
    0 <= m && m + wlen <= |s| && s[m..m + wlen] in marks
  }

  /** Backtracking a greedy repetition that ended at `p` at the latest: the first split point, from `p`
      down to `lo`, where one of `marks` (all of length `wlen`) follows and then an identifier. */
  function BackSearch(s: string, lo: int, p: int, marks: set<string>, wlen: nat): (r: Option<string>)
    ensures r.Some? ==> |r.value| == IdLength && IsIdChars(r.value)
    ensures r.Some? ==> exists j :: OccursAt(s, r.value, j)
    ensures r.Some? ==> lo + wlen + IdLength <= |s|
    decreases p - lo + 1
  {
    if p < lo then None
    else if MarkAt(s, p, marks, wlen) && IdAt(s, p + wlen).Some? then IdAt(s, p + wlen)
    else BackSearch(s, lo, p - 1, marks, wlen)
  }

  /** `[^\/]+\/.+\/` then the identifier, tried at `j`. */
  function PathForm(s: string, j: nat): (r: Option<string>)
    requires j <= |s|
    ensures r.Some? ==> |r.value| == IdLength && IsIdChars(r.value)
    ensures r.Some? ==> exists j :: OccursAt(s, r.value, j)
    ensures r.Some? ==> j + 15 <= |s|
  {
    var q := FirstSlash(s, j);
    if q == j || q == |s| then None
    else BackSearch(s, q + 2, RunEnd(s, q + 1), {"/"}, 1)
  }

  /** `(?:v|e(?:mbed)?)\/` then the identifier, tried at `j`. */
  function ShortForm(s: string, j: nat): (r: Option<string>)
    ensures r.Some? ==> |r.value| == IdLength && IsIdChars(r.value)
    ensures r.Some? ==> exists j :: OccursAt(s, r.value, j)
    ensures r.Some? ==> j + 13 <= |s|
  {
    if OccursAt(s, "v/", j) && IdAt(s, j + 2).Some? then IdAt(s, j + 2)
    else if OccursAt(s, "embed/", j) && IdAt(s, j + 6).Some? then IdAt(s, j + 6)
    else if OccursAt(s, "e/", j) then IdAt(s, j + 2)
    else None
  }

  /** `.*[?&]v=` then the identifier, tried at `j`. */
  function QueryForm(s: string, j: nat): (r: Option<string>)
    requires j <= |s|
    ensures r.Some? ==> |r.value| == IdLength && IsIdChars(r.value)
    ensures r.Some? ==> exists j :: OccursAt(s, r.value, j)
    ensures r.Some? ==> j + 14 <= |s|
  {
    BackSearch(s, j, RunEnd(s, j), {"?v=", "&v="}, 3)
  }

  /** The whole pattern tried at start index `i`. */
  function MatchAt(s: string, i: nat): (r: Option<string>)
    ensures r.Some? ==> |r.value| == IdLength && IsIdChars(r.value)
    ensures r.Some? ==> exists j :: OccursAt(s, r.value, j)
    ensures r.Some? ==> i + 20 <= |s|
  {
    var long := if OccursAt(s, "youtube.com/", i) then
                  var j := i + 12;
                  match PathForm(s, j)
                  case Some(v) => Some(v)
                  case None =>
                    match ShortForm(s, j)
                    case Some(v) => Some(v)
                    case None => QueryForm(s, j)
                else None;
    if long.Some? then long
    else if OccursAt(s, "youtu.be/", i) then IdAt(s, i + 9)
    else None
  }

  /** `url.match(regex)`: the capture of the leftmost match at or after index `i`. */
  function Search(s: string, i: nat): (r: Option<string>)
    ensures r.Some? ==> |r.value| == IdLength && IsIdChars(r.value)
    ensures r.Some? ==> exists j :: OccursAt(s, r.value, j)
    ensures r.Some? ==> 20 <= |s|
    decreases |s| - i + 1
  {
    if i > |s| then None
    else match MatchAt(s, i)
      case Some(v) => Some(v)
      case None => Search(s, i + 1)
  }

  /** `extractVideoId`: the capture of the first match, else the input itself when it is 11 characters long, else null. */
  function ExtractVideoId(url: string): (r: Option<string>)
    ensures r.Some? ==> |r.value| == IdLength
    ensures r.Some? ==> IsIdChars(r.value) || r.value == url
    ensures r.Some? ==> r.value == url || exists j :: OccursAt(url, r.value, j)
    ensures r.None? ==> |url| != IdLength
  {
    match Search(url, 0)
    case Some(v) => Some(v)
    case None => if |url| == IdLength then Some(url) else None
  }

  /** No link is shorter than `youtu.be/` plus an identifier, so any input under 20 characters is
      accepted verbatim when it has 11 characters and rejected otherwise. */
  lemma ShortInputVerbatim(url: string)
    requires |url| < 20
    ensures ExtractVideoId(url) == if |url| == IdLength then Some(url) else None
  {
  }

  /** Both link prefixes begin with 'y', so a match can start only at an index holding 'y'. */
  lemma MatchAtNeedsY(s: string, i: nat)
    requires i >= |s| || s[i] != 'y'
    ensures MatchAt(s, i) == None
  {
  }

  /** No alternative can begin at an index that does not hold 'y', so the search moves past it. */
  lemma {:induction false} SearchSkip(s: string, i: nat, n: nat)
    requires i <= n <= |s|
    requires forall k :: i <= k < n ==> s[k] != 'y'
    ensures Search(s, i) == Search(s, n)
    decreases n - i
  {
    if i < n {
      MatchAtNeedsY(s, i);
      SearchSkip(s, i + 1, n);
    }
  }

  /** Backtracking moves past split points where no mark follows. */
  lemma {:induction false} BackSearchSkip(s: string, lo: int, p: int, q: int, marks: set<string>, wlen: nat)
    requires lo <= q <= p
    requires forall m :: q < m <= p ==> !MarkAt(s, m, marks, wlen)
    ensures BackSearch(s, lo, p, marks, wlen) == BackSearch(s, lo, q, marks, wlen)
    decreases p - q
  {
    if q < p {
      BackSearchSkip(s, lo, p - 1, q, marks, wlen);
    }
  }

  /** A short link yields the identifier after `youtu.be/`, whatever the identifier. */
  lemma ShortLinkYieldsId(v: string)
    requires |v| == IdLength && IsIdChars(v)
    ensures ExtractVideoId("https://youtu.be/" + v) == Some(v)
  {
    var s := "https://youtu.be/" + v;
    SearchSkip(s, 0, 8);
    assert s[8..17] == "youtu.be/";
    assert s[13] == '.';
    assert s[17..28] == v;
    assert MatchAt(s, 8) == Some(v);
  }

  /** The address of a watch page for `v`. */
  function WatchLink(v: string): string
  {
    "https://www.youtube.com/watch?v=" + v
  }

  /** In a watch link, the part after `youtube.com/` holds no '/' and no line terminator. */
  lemma WatchTail(v: string)
    requires |v| == IdLength && IsIdChars(v)
    ensures forall k :: 24 <= k < |WatchLink(v)| ==> WatchLink(v)[k] != '/' && !IsLineTerminator(WatchLink(v)[k])
  {
    var s := WatchLink(v);
    forall k | 24 <= k < |s| ensures s[k] != '/' && !IsLineTerminator(s[k]) {
      if k >= 32 { assert s[k] == v[k - 32]; }
    }
  }

  /** In a watch link, `.*[?&]v=` backtracks to the `?v=` before the identifier. */
  lemma WatchQuery(v: string)
    requires |v| == IdLength && IsIdChars(v)
    ensures QueryForm(WatchLink(v), 24) == Some(v)
  {
    var s := WatchLink(v);
    WatchTail(v);
    assert RunEnd(s, 24) == |s|;
    var marks := {"?v=", "&v="};
    forall m | 29 < m <= |s| ensures !MarkAt(s, m, marks, 3) {
      if m + 3 <= |s| {
        assert s[m..m + 3][0] == s[m];
        if m >= 32 { assert s[m] == v[m - 32]; }
      }
    }
    BackSearchSkip(s, 24, |s|, 29, marks, 3);
    assert s[29..32] == "?v=";
    assert s[32..43] == v;
  }

  /** A watch link yields the `v=` parameter, whatever the identifier. */
  lemma WatchLinkYieldsId(v: string)
    requires |v| == IdLength && IsIdChars(v)
    ensures ExtractVideoId(WatchLink(v)) == Some(v)
  {
    var s := WatchLink(v);
    SearchSkip(s, 0, 12);
    WatchMatch(v);
  }

  /** In a watch link, the match starts at `youtube.com/` and takes the query alternative. */
  lemma WatchMatch(v: string)
    requires |v| == IdLength && IsIdChars(v)
    ensures MatchAt(WatchLink(v), 12) == Some(v)
  {
    var s := WatchLink(v);
    assert s[..32] == "https://www.youtube.com/watch?v=";
    assert s[12..24] == s[..32][12..24];
    assert OccursAt(s, "youtube.com/", 12);
    WatchTail(v);
    assert FirstSlash(s, 24) == |s|;
    assert PathForm(s, 24) == None;
    assert s[24] == 'w';
    assert ShortForm(s, 24) == None;
    WatchQuery(v);
  }

  /** A bare identifier is accepted as it is; so is any other 11-character input, `not-a-video` included,
      while an input of another length that holds no link is rejected. */
  lemma BareInputExamples()
    ensures ExtractVideoId("dQw4w9WgXcQ") == Some("dQw4w9WgXcQ")
    ensures ExtractVideoId("not-a-video") == Some("not-a-video")
    ensures ExtractVideoId("not a video") == Some("not a video")
    ensures ExtractVideoId("no-video") == None
  {
    ShortInputVerbatim("dQw4w9WgXcQ");
    ShortInputVerbatim("not-a-video");
    ShortInputVerbatim("not a video");
    ShortInputVerbatim("no-video");
  }
}
