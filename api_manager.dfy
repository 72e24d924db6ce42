/** The YouTube Data API client with API-key rotation: every request is
    made with the current key; an HTTP 403 (quota exhausted) moves on to the
    next key and retries, until the rotation wraps back to the first key. */
module YoutubeApi {
  import opened JsonModel
  import PyStr

  const YOUTUBE_API_SERVICE_NAME: string := "youtube"
  const YOUTUBE_API_VERSION: string := "v3"

  /** The status the client reads as "this key's quota is used up". */
  const FORBIDDEN: int := 403

  const VIDEO_PARTS: string := "snippet,statistics,contentDetails"
  const CHANNEL_PARTS: string := "snippet,statistics"

  datatype Error = ValueError  // raised for an empty key list

  /** The client object `build(...)` returns, bound to one developer key. */
  datatype Service = Service(serviceName: string, version: string, developerKey: string)

  /** `_build_service` for one key: a YouTube Data API v3 client bound to
      that developer key. */
  function BuildService(apiKey: string): (r: Service)
    ensures r.serviceName == "youtube" && r.version == "v3" && r.developerKey == apiKey
  {
    Service(YOUTUBE_API_SERVICE_NAME, YOUTUBE_API_VERSION, apiKey)
  }

  /** The three list requests the client issues. */
  datatype Request =
    | SearchList(params: map<string, string>)
    | VideosList(part: string, id: string)
    | ChannelsList(part: string, id: string)

  /** What `request.execute()` does: a response body, or an `HttpError`
      with its status. */
  datatype HttpResult = Ok(body: map<string, Json>) | HttpError(status: int)

  /** `response.get("items", [])`. */
  function ItemsOf(body: map<string, Json>): (r: Json)
    ensures "items" in body ==> r == body["items"]
    ensures "items" !in body ==> r == EmptyList
  {
    Get(body, "items", EmptyList)
  }

  /** The key index after a rotation: `(k + 1) % len(api_keys)`. */
  function NextIndex(k: nat, count: nat): (r: nat)
    requires k < count
    ensures r == (k + 1) % count
    ensures r == 0 <==> k + 1 == count
    ensures r != 0 ==> r == k + 1
  {
    if k + 1 == count then 0 else k + 1
  }

  /** How one fetch ends: what it returns, the key index it leaves behind,
      the indices of the keys it sent the request with (in order), and how
      many rotations it made. */
  datatype Attempt = Attempt(items: Json, finalIndex: nat, tried: seq<nat>, rotations: nat)

  /** An attempt preceded by earlier tries and rotations. */
  function After(tried: seq<nat>, rotations: nat, a: Attempt): Attempt
  {
    a.(tried := tried + a.tried, rotations := rotations + a.rotations)
  }

  /** The outcome of `search`, `get_video_details` or `get_channel_details`
      once the request is built, starting at key index `k`: the source's
      recursion (rotate on 403, retry while the rotation has not wrapped). */
  function Retry(keys: seq<string>, google: (Service, Request) -> HttpResult, req: Request, k: nat): (a: Attempt)
    requires k < |keys|
    ensures |a.tried| >= 1 && |a.tried| <= |keys| - k
    ensures forall i :: 0 <= i < |a.tried| ==> a.tried[i] == k + i
    ensures a.rotations <= |keys| - k
    ensures a.rotations == |a.tried| - 1 || (a.rotations == |a.tried| && a.finalIndex == 0)
    ensures a.finalIndex < |keys|
    decreases |keys| - k
  {
    match google(BuildService(keys[k]), req)
    case Ok(body) => Attempt(ItemsOf(body), k, [k], 0)
    case HttpError(status) =>
      if status != FORBIDDEN then Attempt(EmptyList, k, [k], 0)
      else
        var next := NextIndex(k, |keys|);
        if next == 0 then Attempt(EmptyList, 0, [k], 1)
        else After([k], 1, Retry(keys, google, req, next))
  }

  /** One step of `Retry`: what the answer for key k leads to. */
  lemma RetryStep(keys: seq<string>, google: (Service, Request) -> HttpResult, req: Request, k: nat)
    requires k < |keys|
    ensures var answer := google(BuildService(keys[k]), req);
            Retry(keys, google, req, k) ==
              if answer.Ok? then Attempt(ItemsOf(answer.body), k, [k], 0)
              else if answer.status != FORBIDDEN then Attempt(EmptyList, k, [k], 0)
              else if NextIndex(k, |keys|) == 0 then Attempt(EmptyList, 0, [k], 1)
              else After([k], 1, Retry(keys, google, req, NextIndex(k, |keys|)))
  {
  }

  lemma AfterAfter(tried: seq<nat>, k: nat, a: Attempt)
    ensures After(tried, |tried|, After([k], 1, a)) == After(tried + [k], |tried + [k]|, a)
  {
    assert tried + ([k] + a.tried) == (tried + [k]) + a.tried;
  }

  /** The client object: the key list, the index of the key in use and the
      service built with it. */
  class ApiManager {
    /** The Google client's `execute`: a fixed answer per service and request. */
    const google: (Service, Request) -> HttpResult
    var apiKeys: seq<string>
    var currentKeyIndex: nat
    var youtube: Service
    /** Indices of the keys with which a request went out, oldest first. */
    ghost var keysTried: seq<nat>

    ghost predicate Valid()
      reads this
    {
      && |apiKeys| > 0
      && currentKeyIndex < |apiKeys|
      && youtube == BuildService(apiKeys[currentKeyIndex])
    }

    /** `ApiManager(api_keys)` for a non-empty key list: starts at key 0. */
    constructor (apiKeys: seq<string>, google: (Service, Request) -> HttpResult)
      requires |apiKeys| > 0
      ensures Valid()
      ensures this.apiKeys == apiKeys && currentKeyIndex == 0 && this.google == google
      ensures keysTried == []
    {
      this.google := google;
      this.apiKeys := apiKeys;
      this.currentKeyIndex := 0;
      this.youtube := BuildService(apiKeys[0]);
      this.keysTried := [];
    }

    /** `_rotate_key_and_retry`: move to the next key, wrapping around, and
        rebuild the service; report failure exactly when the index wrapped
        back to 0. */
    method RotateKeyAndRetry() returns (again: bool)
      requires Valid()
      modifies this
      ensures Valid() && apiKeys == old(apiKeys) && keysTried == old(keysTried)
      ensures currentKeyIndex == (old(currentKeyIndex) + 1) % |apiKeys|
      ensures again <==> currentKeyIndex != 0
    {
      currentKeyIndex := NextIndex(currentKeyIndex, |apiKeys|);
      youtube := BuildService(apiKeys[currentKeyIndex]);
      if currentKeyIndex == 0 {
        return false;
      }
      return true;
    }

    /** One pass through the body of a fetch method: send the request with
        the current key; on a 403 rotate. `done` is false exactly when the
        source re-enters itself to retry with the next key. */
    method Attempt1(req: Request) returns (done: bool, items: Json)
      requires Valid()
      modifies this
      ensures Valid() && apiKeys == old(apiKeys)
      ensures keysTried == old(keysTried) + [old(currentKeyIndex)]
      ensures var a := Retry(apiKeys, google, req, old(currentKeyIndex));
              if done then a == Attempt(items, currentKeyIndex, [old(currentKeyIndex)], a.rotations)
              else currentKeyIndex == old(currentKeyIndex) + 1
                   && a == After([old(currentKeyIndex)], 1, Retry(apiKeys, google, req, currentKeyIndex))
    {
      RetryStep(apiKeys, google, req, currentKeyIndex);
      var response := google(youtube, req);
      keysTried := keysTried + [currentKeyIndex];
      if response.Ok? {
        return true, ItemsOf(response.body);
      }
      if response.status == FORBIDDEN {
        var again := RotateKeyAndRetry();
        if again {
          return false, EmptyList;
        }
      }
      return true, EmptyList;
    }

    /** Send one built request, rotating on 403 and retrying until a key
        answers or the rotation wraps. */
    method Fetch(req: Request) returns (items: Json)
      requires Valid()
      modifies this
      ensures Valid() && apiKeys == old(apiKeys)
      ensures var a := Retry(apiKeys, google, req, old(currentKeyIndex));
              && items == a.items
              && currentKeyIndex == a.finalIndex
              && keysTried == old(keysTried) + a.tried
    {
      ghost var k0 := currentKeyIndex;
      ghost var triedHere: seq<nat> := [];
      var done := false;
      items := EmptyList;
      while !done
        invariant Valid() && apiKeys == old(apiKeys)
        invariant keysTried == old(keysTried) + triedHere
        invariant !done ==>
                    Retry(apiKeys, google, req, k0)
                    == After(triedHere, |triedHere|, Retry(apiKeys, google, req, currentKeyIndex))
        invariant done ==> var a := Retry(apiKeys, google, req, k0);
                           items == a.items && currentKeyIndex == a.finalIndex && triedHere == a.tried
        decreases !done, |apiKeys| - currentKeyIndex
      {
        ghost var k := currentKeyIndex;
        ghost var triedBefore := triedHere;
        done, items := Attempt1(req);
        triedHere := triedHere + [k];
        if !done {
          AfterAfter(triedBefore, k, Retry(apiKeys, google, req, currentKeyIndex));
        }
      }
    }

    /** `search(**kwargs)`. */
    method Search(params: map<string, string>) returns (items: Json)
      requires Valid()
      modifies this
      ensures Valid() && apiKeys == old(apiKeys)
      ensures var a := Retry(apiKeys, google, SearchList(params), old(currentKeyIndex));
              items == a.items && currentKeyIndex == a.finalIndex && keysTried == old(keysTried) + a.tried
    {
      items := Fetch(SearchList(params));
    }

    /** `get_video_details(video_ids)`: nothing is requested for an empty
        id list; otherwise one request for all ids, comma-joined. */
    method GetVideoDetails(videoIds: seq<string>) returns (items: Json)
      requires Valid()
      modifies this
      ensures Valid() && apiKeys == old(apiKeys)
      ensures videoIds == [] ==> items == EmptyList && unchanged(this)
      ensures videoIds != [] ==>
              var a := Retry(apiKeys, google, VideosList(VIDEO_PARTS, PyStr.Join(",", videoIds)), old(currentKeyIndex));
              items == a.items && currentKeyIndex == a.finalIndex && keysTried == old(keysTried) + a.tried
    {
      if videoIds == [] {
        return EmptyList;
      }
      items := Fetch(VideosList(VIDEO_PARTS, PyStr.Join(",", videoIds)));
    }

    /** `get_channel_details(channel_ids)`: as for videos. */
    method GetChannelDetails(channelIds: seq<string>) returns (items: Json)
      requires Valid()
      modifies this
      ensures Valid() && apiKeys == old(apiKeys)
      ensures channelIds == [] ==> items == EmptyList && unchanged(this)
      ensures channelIds != [] ==>
              var a := Retry(apiKeys, google, ChannelsList(CHANNEL_PARTS, PyStr.Join(",", channelIds)), old(currentKeyIndex));
              items == a.items && currentKeyIndex == a.finalIndex && keysTried == old(keysTried) + a.tried
    {
      if channelIds == [] {
        return EmptyList;
      }
      items := Fetch(ChannelsList(CHANNEL_PARTS, PyStr.Join(",", channelIds)));
    }
  }

  /** `ApiManager(api_keys)`: an empty key list raises `ValueError`. */
  method NewApiManager(apiKeys: seq<string>, google: (Service, Request) -> HttpResult)
    returns (r: Result<ApiManager, Error>)
    ensures apiKeys == [] <==> r == Failure(ValueError)
    ensures r.Success? ==> && fresh(r.value) && r.value.Valid()
                           && r.value.apiKeys == apiKeys && r.value.currentKeyIndex == 0
                           && r.value.google == google && r.value.keysTried == []
  {
    if apiKeys == [] {
      return Failure(ValueError);
    }
    var m := new ApiManager(apiKeys, google);
    return Success(m);
  }

  /** The whole fetch, response by response: every key tried before the
      last one answered 403; the result is the last answer's items if it
      succeeded and `[]` otherwise; the index ends on the last key tried,
      or one past it (wrapped) when that key answered 403. */
  lemma {:induction false} RetryCharacterized(keys: seq<string>, google: (Service, Request) -> HttpResult, req: Request, k: nat)
    requires k < |keys|
    ensures var a := Retry(keys, google, req, k);
            var last := k + |a.tried| - 1;
            var answer := google(BuildService(keys[last]), req);
            && (forall j :: k <= j < last ==> google(BuildService(keys[j]), req) == HttpError(FORBIDDEN))
            && a.items == (if answer.Ok? then ItemsOf(answer.body) else EmptyList)
            && a.finalIndex == (if answer == HttpError(FORBIDDEN) then NextIndex(last, |keys|) else last)
            && (answer == HttpError(FORBIDDEN) ==> a.rotations == |a.tried|)
    decreases |keys| - k
  {
    match google(BuildService(keys[k]), req)
    case Ok(body) =>
    case HttpError(status) =>
      if status == FORBIDDEN {
        var next := NextIndex(k, |keys|);
        if next != 0 {
          RetryCharacterized(keys, google, req, next);
        }
      }
  }

  /** When every key from index k on answers 403, the fetch tries each of
      them once, rotates len - k times, returns `[]` and leaves the index at 0. */
  lemma {:induction false} AllForbidden(keys: seq<string>, google: (Service, Request) -> HttpResult, req: Request, k: nat)
    requires k < |keys|
    requires forall j :: k <= j < |keys| ==> google(BuildService(keys[j]), req) == HttpError(FORBIDDEN)
    ensures Retry(keys, google, req, k)
            == Attempt(EmptyList, 0, seq(|keys| - k, i => k + i), |keys| - k)
    decreases |keys| - k
  {
    var next := NextIndex(k, |keys|);
    if next != 0 {
      AllForbidden(keys, google, req, next);
      assert [k] + seq(|keys| - next, i => next + i) == seq(|keys| - k, i => k + i);
    }
  }

  /** With a single key a 403 is never retried: one request, `[]`, index 0. */
  lemma SingleKeyNoRetry(key: string, google: (Service, Request) -> HttpResult, req: Request)
    requires google(BuildService(key), req) == HttpError(FORBIDDEN)
    ensures Retry([key], google, req, 0) == Attempt(EmptyList, 0, [0], 1)
  {
  }

  /** Any other HTTP error returns `[]` at once, without rotating. */
  lemma OtherErrorNoRotation(keys: seq<string>, google: (Service, Request) -> HttpResult, req: Request, k: nat, status: int)
    requires k < |keys| && status != FORBIDDEN
    requires google(BuildService(keys[k]), req) == HttpError(status)
    ensures Retry(keys, google, req, k) == Attempt(EmptyList, k, [k], 0)
  {
  }
}
