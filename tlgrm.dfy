/**
 * The Telegram side of the notifier (UnrealNotifierDeamon/tlgrm.cpp): the check of a
 * getUpdates reply, the write callback curl drives with the reply, and the process-wide
 * chat-id cache that getChatId returns.
 *
 * Text parsing is not modelled: a reply body is the JSON value json::parse builds from
 * it, or None when json::parse would throw on it.
 */
module Tlgrm {
  import opened Wrappers

  /** A parsed nlohmann::json value; an object's members are listed in iteration order. */
  datatype Json =
    | JNull
    | JBool(b: bool)
    | JNumber(n: int)
    | JString(s: string)
    | JArray(elems: seq<Json>)
    | JObject(members: seq<(string, Json)>)

  const OkKey: string := "ok"
  const ResultKey: string := "result"
  const MessageKey: string := "message"

  /** nlohmann's type_error ids: get<bool>() on a non-boolean, and operator[] with a key on a non-object. */
  const TypeMustBeBoolean: nat := 302
  const CannotUseOperatorIndex: nat := 305

  /** One past the largest size_t. */
  const SizeTModulus: nat := 0x1_0000_0000_0000_0000

  /** How one call of UpdateChatIdFromRawJson ends. */
  datatype Exit =
    | Returned            // a plain return
    | ParseError          // json::parse threw
    | TypeError(id: nat)  // nlohmann threw type_error.<id>
    | MissingKeyAccess    // const operator[] on an absent key: undefined in a release build

  /** One delivery of the reply to the write callback: curl's size and nmemb, and the body. */
  datatype Chunk = Chunk(size: nat, nmemb: nat, body: Option<Json>)

  /** What curl does in getChatId: either no handle could be created, or the reply arrives in chunks. */
  datatype Transfer = NoHandle | Performed(chunks: seq<Chunk>)

  /** The value stored under the first member named key. */
  function Lookup(members: seq<(string, Json)>, key: string): (r: Option<Json>)
    ensures r.Some? <==> exists i | 0 <= i < |members| :: members[i].0 == key
    ensures r.Some? ==> exists i | 0 <= i < |members| ::
      members[i] == (key, r.value) && forall k | 0 <= k < i :: members[k].0 != key
  {
    if members == [] then None
    else if members[0].0 == key then Some(members[0].1)
    else
      var r := Lookup(members[1..], key);
      if r.Some? then
        var i :| 0 <= i < |members[1..]| && members[1..][i] == (key, r.value)
          && forall k | 0 <= k < i :: members[1..][k].0 != key;
        assert members[i + 1] == (key, r.value);
        r
      else r
  }

  /** tlgrm::hasKey (tlgrm.cpp:16-19): find != end, which on a non-object is never the case. */
  function HasKey(j: Json, key: string): (r: bool)
    ensures r <==> j.JObject? && exists i | 0 <= i < |j.members| :: j.members[i].0 == key
  {
    j.JObject? && Lookup(j.members, key).Some?
  }

  /** const operator[] on a key the object has. */
  function At(j: Json, key: string): Json
    requires HasKey(j, key)
  {
    Lookup(j.members, key).value
  }

  /** What a range-for over j visits: nothing for null, the value itself for any other scalar. */
  function Elements(j: Json): seq<Json>
  {
    match j
    case JNull => []
    case JArray(es) => es
    case JObject(ms) => seq(|ms|, k requires 0 <= k < |ms| => ms[k].1)
    case _ => [j]
  }

  /** One pass of the loop at tlgrm.cpp:53-60; the hasKey checks inside wxASSERT have no effect. */
  function ElementExit(resultElem: Json): Exit
  {
    if !resultElem.JObject? then TypeError(CannotUseOperatorIndex)
    else if !HasKey(resultElem, MessageKey) then MissingKeyAccess
    else Returned
  }

  /** The loop over the result elements ends at the first element that faults. */
  function ScanExit(elems: seq<Json>): (r: Exit)
    ensures r == Returned <==> forall k | 0 <= k < |elems| :: HasKey(elems[k], MessageKey)
    ensures r != Returned ==> exists k | 0 <= k < |elems| ::
      r == ElementExit(elems[k]) && forall i | 0 <= i < k :: ElementExit(elems[i]) == Returned
  {
    if elems == [] then Returned
    else if ElementExit(elems[0]) != Returned then ElementExit(elems[0])
    else
      var r := ScanExit(elems[1..]);
      assert forall k | 1 <= k < |elems| :: elems[k] == elems[1..][k - 1];
      r
  }

  /** How UpdateChatIdFromRawJson (tlgrm.cpp:30-61) ends for a reply body. */
  function RawJsonExit(body: Option<Json>): (r: Exit)
    ensures r == ParseError <==> body.None?
    ensures r == TypeError(TypeMustBeBoolean) <==>
      body.Some? && HasKey(body.value, OkKey) && !At(body.value, OkKey).JBool?
    ensures r == TypeError(CannotUseOperatorIndex) || r == MissingKeyAccess ==>
      && body.Some? && HasKey(body.value, OkKey) && At(body.value, OkKey) == JBool(true)
      && HasKey(body.value, ResultKey)
  {
    match body
    case None => ParseError
    case Some(j) =>
      if !HasKey(j, OkKey) then Returned
      else if !At(j, OkKey).JBool? then TypeError(TypeMustBeBoolean)
      else if !At(j, OkKey).b then Returned
      else if !HasKey(j, ResultKey) then Returned
      else ScanExit(Elements(At(j, ResultKey)))
  }

  /**
   * A reply without "ok", with "ok" false, or without "result" is dismissed by a plain
   * return before any update is looked at.
   */
  lemma EnvelopeRejectedEarly(j: Json)
    requires !HasKey(j, OkKey) || At(j, OkKey) == JBool(false)
      || (At(j, OkKey) == JBool(true) && !HasKey(j, ResultKey))
    ensures RawJsonExit(Some(j)) == Returned
  {
  }

  /**
   * A reply with "ok" true and a "result" array returns normally exactly when every
   * update is an object with a "message" member; "update_id" and "chat" are never required.
   */
  lemma WellFormedUpdatesReturn(j: Json, updates: seq<Json>)
    requires HasKey(j, OkKey) && At(j, OkKey) == JBool(true)
    requires HasKey(j, ResultKey) && At(j, ResultKey) == JArray(updates)
    ensures RawJsonExit(Some(j)) == Returned <==> forall k | 0 <= k < |updates| :: HasKey(updates[k], MessageKey)
  {
  }

  /**
   * The return value of tlgrmReadCallback (tlgrm.cpp:63-68): size * nmemb in size_t
   * arithmetic, whatever the body holds.
   */
  function ConsumedBytes(size: nat, nmemb: nat): (r: nat)
    requires size < SizeTModulus && nmemb < SizeTModulus
    ensures r < SizeTModulus
    ensures size * nmemb < SizeTModulus ==> r == size * nmemb
  {
    (size * nmemb) % SizeTModulus
  }

  /** Holder of tlgrm::hackChatId (tlgrm.cpp:14), the process-wide chat-id cache. */
  class ChatIdCache {
    var hackChatId: Option<int>

    /** The only value ever stored in the cache is the empty one. */
    ghost predicate Valid()
      reads this
    {
      hackChatId == None
    }

    constructor ()
      ensures Valid()
    {
      hackChatId := None;
    }

    /**
     * tlgrm::UpdateChatIdFromRawJson (tlgrm.cpp:30-61): clears the cache first, then checks
     * the envelope and walks the updates, and never stores a chat id.
     */
    method UpdateChatIdFromRawJson(body: Option<Json>) returns (exit: Exit)
      modifies this
      ensures Valid()
      ensures exit == RawJsonExit(body)
    {
      hackChatId := None;
      if body.None? {
        return ParseError;
      }
      var jsonObj := body.value;
      if !HasKey(jsonObj, OkKey) {
        return Returned;
      }
      var ok := At(jsonObj, OkKey);
      if !ok.JBool? {
        return TypeError(TypeMustBeBoolean);
      }
      if !ok.b {
        return Returned;
      }
      if !HasKey(jsonObj, ResultKey) {
        return Returned;
      }
      var resultArray := At(jsonObj, ResultKey);
      var elems := Elements(resultArray);
      var i := 0;
      while i < |elems|
        invariant 0 <= i <= |elems|
        invariant Valid()
        invariant ScanExit(elems) == ScanExit(elems[i..])
      {
        var resultElem := elems[i];
        assert elems[i..][1..] == elems[i + 1..];
        if !resultElem.JObject? {
          return TypeError(CannotUseOperatorIndex);
        }
        if !HasKey(resultElem, MessageKey) {
          return MissingKeyAccess;
        }
        i := i + 1;
      }
      exit := Returned;
    }

    /** tlgrm::tlgrmReadCallback (tlgrm.cpp:63-68): hands the body on and reports it all consumed. */
    method ReadCallback(chunk: Chunk) returns (consumed: nat, exit: Exit)
      requires chunk.size < SizeTModulus && chunk.nmemb < SizeTModulus
      modifies this
      ensures Valid()
      ensures consumed == ConsumedBytes(chunk.size, chunk.nmemb)
      ensures exit == RawJsonExit(chunk.body)
    {
      consumed := ConsumedBytes(chunk.size, chunk.nmemb);
      exit := UpdateChatIdFromRawJson(chunk.body);
    }

    /**
     * tlgrm::getChatId (tlgrm.cpp:77-107): performs the getUpdates request, if a curl handle
     * could be created, and returns the cache, which holds no id whatever the reply was.
     * The login is never consulted.
     */
    method GetChatId(tlgrmLogin: string, transfer: Transfer) returns (id: Option<int>)
      requires Valid()
      requires transfer.Performed? ==> forall k | 0 <= k < |transfer.chunks| ::
        transfer.chunks[k].size < SizeTModulus && transfer.chunks[k].nmemb < SizeTModulus
      modifies this
      ensures Valid()
      ensures id == None
    {
      if transfer.Performed? {
        var chunks := transfer.chunks;
        var i := 0;
        while i < |chunks|
          invariant 0 <= i <= |chunks|
          invariant Valid()
        {
          var consumed, exit := ReadCallback(chunks[i]);
          if exit != Returned {
            // a thrown exception unwinds out of curl_easy_perform; on MissingKeyAccess, which
            // is undefined behaviour rather than an exception, stopping too is a choice of this model
            break;
          }
          i := i + 1;
        }
      }
      id := hackChatId;
    }
  }
}
