/** `Manager.is_channel_live`: search the channel-search results for the
    recorded channel, re-authenticating on every 401. The HTTP responses are
    an input sequence, one element per request the method sends. */
module Liveness {
  import opened Results

  /** One element of the `data` array of the search response. */
  datatype Entry = Entry(displayName: string, isLive: bool)

  /** A search response: its status code and the `data` array of its JSON
      body, `None` when the body has no `data` key. */
  datatype Response = Response(status: int, data: Option<seq<Entry>>)

  datatype LookupError =
    | ChannelNotFound  // no entry matched: `raise ChannelNotFound()`
    | MissingData      // `resp.json()["data"]` raised `KeyError`
    | NoResponse       // every modelled request answered 401; the source keeps retrying
    | RequestFailed    // `requests.get`/`requests.post` raised, or the body is not JSON

  const Unauthorized := 401

  // ---------------------------------------------------------------------------
  // Case folding

  predicate IsUpper(c: char) {
    'A' <= c <= 'Z'
  }

  function LowerChar(c: char): char {
    if IsUpper(c) then (c as int + 32) as char else c
  }

  /** `str.lower()` restricted to ASCII letters. */
  function Lower(s: string): (r: string)
    ensures |r| == |s| && forall i :: 0 <= i < |s| ==> r[i] == LowerChar(s[i])
  {
    seq(|s|, i requires 0 <= i < |s| => LowerChar(s[i]))
  }

  /** A lowered string has no upper-case letters left. */
  lemma LowerHasNoUpper(s: string)
    ensures forall i :: 0 <= i < |s| ==> !IsUpper(Lower(s)[i])
  {
  }

  // ---------------------------------------------------------------------------
  // Matching

  /** `channel["display_name"].lower() == self.channel`: only the display name
      is lowered, the recorded channel is compared as given. */
  predicate Matches(e: Entry, channel: string) {
    Lower(e.displayName) == channel
  }

  /** `entries[i]` is the first entry that matches. */
  predicate FirstMatch(entries: seq<Entry>, channel: string, i: int) {
    && 0 <= i < |entries|
    && Matches(entries[i], channel)
    && forall j :: 0 <= j < i ==> !Matches(entries[j], channel)
  }

  /** The `for` loop over `data`: the live flag of the first matching entry,
      or `ChannelNotFound` when none matches. */
  function FindChannel(entries: seq<Entry>, channel: string): (r: Result<bool, LookupError>)
    ensures r.Success? <==> exists i :: 0 <= i < |entries| && Matches(entries[i], channel)
    ensures r.Failure? ==> r.error == ChannelNotFound
    ensures forall i :: FirstMatch(entries, channel, i) ==> r == Success(entries[i].isLive)
  {
    if |entries| == 0 then Failure(ChannelNotFound)
    else if Matches(entries[0], channel) then Success(entries[0].isLive)
    else
      var r := FindChannel(entries[1..], channel);
      assert forall i :: FirstMatch(entries, channel, i) ==> i > 0 && FirstMatch(entries[1..], channel, i - 1);
      assert forall i :: 0 < i < |entries| ==> entries[i] == entries[1..][i - 1];
      r
  }

  /** A channel written with an upper-case letter is never found, whatever
      the search returns, since only the display names are lowered. */
  lemma UppercaseChannelNeverFound(entries: seq<Entry>, channel: string)
    requires exists k :: 0 <= k < |channel| && IsUpper(channel[k])
    ensures FindChannel(entries, channel) == Failure(ChannelNotFound)
  {
    var k :| 0 <= k < |channel| && IsUpper(channel[k]);
    forall e | e in entries
      ensures !Matches(e, channel)
    {
      LowerHasNoUpper(e.displayName);
    }
  }

  /** The answer carried by one non-401 response. */
  function Answer(resp: Response, channel: string): (r: Result<bool, LookupError>)
    ensures r == Failure(MissingData) <==> resp.data.None?
    ensures resp.data.Some? ==>
              && (r.Success? <==> exists i :: 0 <= i < |resp.data.value| && Matches(resp.data.value[i], channel))
              && (r.Failure? ==> r.error == ChannelNotFound)
    ensures forall i :: resp.data.Some? && FirstMatch(resp.data.value, channel, i) ==>
              r == Success(resp.data.value[i].isLive)
  {
    match resp.data
    case None => Failure(MissingData)
    case Some(entries) => FindChannel(entries, channel)
  }

  // ---------------------------------------------------------------------------
  // The 401 retry

  /** `responses[k]` is the first response that is not a 401. */
  predicate AnsweredAt(responses: seq<Response>, k: int) {
    && 0 <= k < |responses|
    && responses[k].status != Unauthorized
    && forall j :: 0 <= j < k ==> responses[j].status == Unauthorized
  }

  predicate AllUnauthorized(responses: seq<Response>) {
    forall j :: 0 <= j < |responses| ==> responses[j].status == Unauthorized
  }

  /** The result of one `is_channel_live` call and the number of `auth`
      calls it made on the way. */
  datatype Lookup = Lookup(live: Result<bool, LookupError>, authCalls: nat)

  /** `is_channel_live`: each 401 triggers one `auth` and a recursive retry on
      the next response. */
  function IsChannelLive(responses: seq<Response>, channel: string): (r: Lookup)
    ensures forall k :: AnsweredAt(responses, k) ==>
              r.authCalls == k && r.live == Answer(responses[k], channel)
    ensures AllUnauthorized(responses) ==> r.authCalls == |responses| && r.live == Failure(NoResponse)
  {
    if |responses| == 0 then Lookup(Failure(NoResponse), 0)
    else if responses[0].status == Unauthorized then
      var rest := IsChannelLive(responses[1..], channel);
      assert forall k :: AnsweredAt(responses, k) ==> k > 0 && AnsweredAt(responses[1..], k - 1);
      Lookup(rest.live, rest.authCalls + 1)
    else
      assert forall k :: AnsweredAt(responses, k) ==> k == 0;
      Lookup(Answer(responses[0], channel), 0)
  }

  /** Every response sequence either has a first non-401 answer or is all
      401s, so the two contracts of `IsChannelLive` cover every input. */
  lemma {:induction false} AnsweredOrUnauthorized(responses: seq<Response>)
    ensures AllUnauthorized(responses) || exists k :: AnsweredAt(responses, k)
  {
    if |responses| > 0 {
      if responses[0].status != Unauthorized {
        assert AnsweredAt(responses, 0);
      } else {
        var tail := responses[1..];
        AnsweredOrUnauthorized(tail);
        if AllUnauthorized(tail) {
          assert forall j :: 0 < j < |responses| ==> responses[j] == tail[j - 1];
        } else {
          var k :| AnsweredAt(tail, k);
          assert forall j :: 0 < j < |responses| ==> responses[j] == tail[j - 1];
          assert AnsweredAt(responses, k + 1);
        }
      }
    }
  }

  /** A single expired token: one 401, one `auth`, then the retry's answer. */
  lemma OneUnauthorizedThenAnswer(expired: Response, resp: Response, channel: string)
    requires expired.status == Unauthorized && resp.status != Unauthorized
    ensures IsChannelLive([expired, resp], channel) == Lookup(Answer(resp, channel), 1)
  {
  }
}
