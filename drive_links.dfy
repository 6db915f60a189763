/** The dataset loader's handling of Google Drive: the file id in a share link,
    and the confirmation token Drive hands out in a cookie for large files. */
module DriveLinks {
  import opened Wrappers
  import opened PyStr

  /** The regular-expression class `[a-zA-Z0-9_-]`. */
  predicate IdChar(c: char) {
    'a' <= c <= 'z' || 'A' <= c <= 'Z' || '0' <= c <= '9' || c == '_' || c == '-'
  }

  /** The pattern `/d/([a-zA-Z0-9_-]+)` can match starting at position `p`:
      `/d/` and at least one id character. */
  predicate MatchesAt(url: string, p: int) {
    0 <= p && p + 4 <= |url| && url[p..p + 3] == "/d/" && IdChar(url[p + 3])
  }

  /** `id` is the group the search reports: the match starts at the leftmost
      position `p` where one can, and `id` is the longest run of id characters
      after its `/d/`. */
  predicate FoundAt(url: string, p: int, id: string) {
    MatchesAt(url, p) &&
    (forall q :: 0 <= q < p ==> !MatchesAt(url, q)) &&
    |id| > 0 && (forall k :: 0 <= k < |id| ==> IdChar(id[k])) &&
    p + 3 + |id| <= |url| && url[p..p + 3 + |id|] == "/d/" + id &&
    (p + 3 + |id| == |url| || !IdChar(url[p + 3 + |id|]))
  }

  /** The end of the run of id characters that starts at `i`: the greedy `+`. */
  function RunEnd(url: string, i: nat): (j: nat)
    requires i <= |url|
    ensures i <= j <= |url|
    ensures forall k :: i <= k < j ==> IdChar(url[k])
    ensures j == |url| || !IdChar(url[j])
    decreases |url| - i
  {
    if i < |url| && IdChar(url[i]) then RunEnd(url, i + 1) else i
  }

  /** The leftmost position at or after `from` where the pattern matches: the
      search tries the start positions from left to right. */
  function FirstMatch(url: string, from: nat): (r: Option<nat>)
    ensures r.None? ==> forall p :: from <= p < |url| ==> !MatchesAt(url, p)
    ensures r.Some? ==>
      from <= r.value && MatchesAt(url, r.value) && forall p :: from <= p < r.value ==> !MatchesAt(url, p)
    decreases |url| - from
  {
    if from + 4 > |url| then None
    else if MatchesAt(url, from) then Some(from)
    else FirstMatch(url, from + 1)
  }

  /** `extract_gdrive_id`: no id when the pattern matches nowhere; otherwise the
      maximal, non-empty run of id characters after the leftmost `/d/` that is
      followed by one. */
  function ExtractGdriveId(url: string): (r: Option<string>)
    ensures r.None? <==> forall p :: 0 <= p < |url| ==> !MatchesAt(url, p)
    ensures r.Some? ==> exists p :: FoundAt(url, p, r.value)
  {
    match FirstMatch(url, 0)
    case None => None
    case Some(p) =>
      var id := url[p + 3..RunEnd(url, p + 3)];
      assert url[p..p + 3 + |id|] == url[p..p + 3] + id;
      assert FoundAt(url, p, id);
      Some(id)
  }

  /** The search reports one id at most: the leftmost match and its longest run
      pin it down. */
  lemma FoundUnique(url: string, p: int, id: string, p': int, id': string)
    requires FoundAt(url, p, id) && FoundAt(url, p', id')
    ensures p == p' && id == id'
  {
    FoundChars(url, p, id);
    FoundChars(url, p', id');
    if p < p' || p' < p || |id| < |id'| || |id'| < |id| {
      assert false;
    }
    assert forall k :: 0 <= k < |id| ==> id[k] == id'[k];
  }

  /** The id is spelled out in the link right after `/d/`. */
  lemma FoundChars(url: string, p: int, id: string)
    requires FoundAt(url, p, id)
    ensures forall k :: 0 <= k < |id| ==> id[k] == url[p + 3 + k]
  {
    forall k | 0 <= k < |id| ensures id[k] == url[p + 3 + k] {
      assert id[k] == ("/d/" + id)[3 + k] == url[p..p + 3 + |id|][3 + k];
    }
  }

  const WarningPrefix: string := "download_warning"

  /** Cookie `i` is the first whose name starts with the warning prefix. */
  predicate FirstWarning(cookies: seq<(string, string)>, i: int) {
    0 <= i < |cookies| && StartsWith(cookies[i].0, WarningPrefix) &&
    forall j :: 0 <= j < i ==> !StartsWith(cookies[j].0, WarningPrefix)
  }

  /** `get_confirm_token`: walks the cookies in order and returns the value of
      the first whose name starts with "download_warning", or nothing. */
  method GetConfirmToken(cookies: seq<(string, string)>) returns (token: Option<string>)
    ensures token.None? <==> forall i :: 0 <= i < |cookies| ==> !StartsWith(cookies[i].0, WarningPrefix)
    ensures token.Some? ==> exists i :: FirstWarning(cookies, i) && token.value == cookies[i].1
  {
    for n := 0 to |cookies|
      invariant forall j :: 0 <= j < n ==> !StartsWith(cookies[j].0, WarningPrefix)
    {
      var (key, value) := cookies[n];
      if StartsWith(key, WarningPrefix) {
        return Some(value);
      }
    }
    return None;
  }
}
