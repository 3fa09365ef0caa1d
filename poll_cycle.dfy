/**
 * The edge-triggered poll cycle of the parsing timer (UnrealNotifierDeamon/unFrame.cpp:184-212)
 * as a function of its inputs, and what a run of consecutive ticks sends.
 *
 * The log parser and the change test live in a header that is not part of this model, so
 * they are parameters: a mask is whatever parseUELog returns, and justChanged(previous, recent)
 * stands for isJustChangedBits(previous, recent, EParserMask::editorStart).
 */
module PollCycle {
  import opened Wrappers

  /** A value of EParserMask::type; its width is not visible here. */
  type Mask = nat

  /** The only notification text the cycle sends. */
  const StartEditorText: string := "Start Editor"

  /** A message handed to tlgrm::sendMessage. */
  datatype Message = Message(text: string, chatId: int)

  /** What one tick sends, if anything, and the value m_parsedValue holds after it. */
  datatype Outcome = Outcome(sent: Option<Message>, parsed: Option<Mask>)

  /**
   * One timer tick from cached mask prev: gateOpen is isParsingLoopActive, chatId the lookup
   * parseDataFromLog makes itself, recent the mask read from the log.
   */
  function Tick(prev: Option<Mask>, gateOpen: bool, chatId: Option<int>, recent: Mask,
                justChanged: (Mask, Mask) -> bool): (o: Outcome)
    ensures prev.None? ==> o.sent.None?
    ensures o.sent.Some? ==>
      gateOpen && chatId.Some? && o.sent.value == Message(StartEditorText, chatId.value) && o.parsed == Some(recent)
    ensures o.parsed == prev || o.parsed == Some(recent)
    ensures !gateOpen ==> o == Outcome(None, prev)
  {
    if !gateOpen || chatId.None? then Outcome(None, prev)
    else if prev.Some? && justChanged(prev.value, recent) then
      Outcome(Some(Message(StartEditorText, chatId.value)), Some(recent))
    else Outcome(None, Some(recent))
  }

  /**
   * The messages sent by consecutive ticks, starting from cached mask prev, in which the
   * gate is open and the chat id c is found, tick k reading masks[k].
   */
  function Run(prev: Option<Mask>, masks: seq<Mask>, c: int, justChanged: (Mask, Mask) -> bool): seq<Message>
    decreases |masks|
  {
    if masks == [] then []
    else
      var o := Tick(prev, true, Some(c), masks[0], justChanged);
      (if o.sent.Some? then [o.sent.value] else []) + Run(o.parsed, masks[1..], c, justChanged)
  }

  /** For each tick of such a run, whether it sees a change against the mask read one tick before. */
  function Changes(prev: Option<Mask>, masks: seq<Mask>, justChanged: (Mask, Mask) -> bool): (r: seq<bool>)
    ensures |r| == |masks|
  {
    seq(|masks|, k requires 0 <= k < |masks| =>
      if k == 0 then prev.Some? && justChanged(prev.value, masks[0])
      else justChanged(masks[k - 1], masks[k]))
  }

  function CountTrue(bs: seq<bool>): nat
  {
    if bs == [] then 0 else (if bs[0] then 1 else 0) + CountTrue(bs[1..])
  }

  /** A run of length n in which every tick reads mask m. */
  function Steady(m: Mask, n: nat): (r: seq<Mask>)
    ensures |r| == n && forall k | 0 <= k < n :: r[k] == m
  {
    seq(n, _ => m)
  }

  /**
   * A run sends one "Start Editor" message to c per tick that sees a change and no other
   * message; the first tick after start-up (prev absent) never counts as a change.
   */
  lemma {:induction false} RunSendsOnePerChange(prev: Option<Mask>, masks: seq<Mask>, c: int,
                                                justChanged: (Mask, Mask) -> bool)
    ensures |Run(prev, masks, c, justChanged)| == CountTrue(Changes(prev, masks, justChanged))
    ensures forall m | m in Run(prev, masks, c, justChanged) :: m == Message(StartEditorText, c)
    decreases |masks|
  {
    if masks != [] {
      var next := Some(masks[0]);
      RunSendsOnePerChange(next, masks[1..], c, justChanged);
      var f := Changes(prev, masks, justChanged);
      assert f[1..] == Changes(next, masks[1..], justChanged);
    }
  }

  /**
   * With a change test that never fires on an unchanged mask, a mask that stays the same
   * tick after tick sends nothing, whether or not a mask was cached before.
   */
  lemma {:induction false} SteadyRunIsSilent(prev: Option<Mask>, m: Mask, n: nat, c: int,
                                             justChanged: (Mask, Mask) -> bool)
    requires !justChanged(m, m)
    requires prev == None || prev == Some(m)
    ensures Run(prev, Steady(m, n), c, justChanged) == []
    decreases n
  {
    if n > 0 {
      assert Steady(m, n)[1..] == Steady(m, n - 1);
      SteadyRunIsSilent(Some(m), m, n - 1, c, justChanged);
    }
  }

  /**
   * One change followed by n ticks in which the flag stays as it is sends exactly one
   * message, not one per tick.
   */
  lemma {:induction false} SingleChangeNotifiesOnce(a: Mask, b: Mask, n: nat, c: int,
                                                    justChanged: (Mask, Mask) -> bool)
    requires justChanged(a, b) && !justChanged(b, b)
    requires n > 0
    ensures Run(None, [a] + Steady(b, n), c, justChanged) == [Message(StartEditorText, c)]
  {
    var masks := [a] + Steady(b, n);
    assert masks[1..] == Steady(b, n);
    assert Steady(b, n)[1..] == Steady(b, n - 1);
    SteadyRunIsSilent(Some(b), b, n - 1, c, justChanged);
  }
}
