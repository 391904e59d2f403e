// The client's chat box: a bounded list of timed entries, the text the history
// widget shows, and the time at which the next shown entry expires. Clock reads are
// the `now` parameters; timestamps are nanosecond counts.

module Chat {

  const MaxTimestamp: int := 0x7FFF_FFFF_FFFF_FFFF

  datatype Color = Color(r: real, g: real, b: real, a: real)

  const White: Color := Color(1.0, 1.0, 1.0, 1.0)

  datatype Item = ColorItem(color: Color) | TextItem(text: string)

  datatype Entry = Entry(items: seq<Item>, disappearTime: int)

  /** What the history widget is told after it was cleared, in order. */
  datatype TextOp = SetTextColor(color: Color) | AppendText(text: string)

  predicate Expired(e: Entry, now: int) {
    now > e.disappearTime
  }

  // ---------------------------------------------------------------------------
  // The specification of `Refresh`

  /** The widget operations of one entry's items: colours are set, empty texts are
      skipped. */
  function ItemOps(items: seq<Item>): (ops: seq<TextOp>)
    ensures |ops| <= |items|
    ensures forall k :: 0 <= k < |ops| ==> ops[k] != AppendText("")
  {
    if items == [] then []
    else
      var item := items[|items| - 1];
      ItemOps(items[..|items| - 1])
      + (match item
         case ColorItem(c) => [SetTextColor(c)]
         case TextItem(t) => if t == [] then [] else [AppendText(t)])
  }

  /** One shown entry: its items, then white and a line break. */
  function EntryOps(e: Entry): seq<TextOp> {
    ItemOps(e.items) + [SetTextColor(White), AppendText("\n")]
  }

  predicate Shown(e: Entry, now: int, open: bool) {
    !Expired(e, now) || open
  }

  /** The history after `Refresh`: each entry in order, expired ones only while the
      chat box is open. */
  function Rendered(entries: seq<Entry>, now: int, open: bool): seq<TextOp> {
    if entries == [] then []
    else
      var e := entries[|entries| - 1];
      Rendered(entries[..|entries| - 1], now, open) + (if Shown(e, now, open) then EntryOps(e) else [])
  }

  /** `nextDisappearTime` after `Refresh`: the earliest disappearance of an entry that
      has not expired, or the largest timestamp when there is none. */
  function NextDisappear(entries: seq<Entry>, now: int): int {
    if entries == [] then MaxTimestamp
    else
      var e := entries[|entries| - 1];
      var rest := NextDisappear(entries[..|entries| - 1], now);
      if Expired(e, now) then rest else Min(rest, e.disappearTime)
  }

  function Min(a: int, b: int): int {
    if a <= b then a else b
  }

  /** `NextDisappear` is the minimum of the largest timestamp and the disappearance
      times of the live entries: no larger than any of them, and equal to one. */
  lemma {:induction false} NextDisappearIsMinimum(entries: seq<Entry>, now: int)
    ensures var t := NextDisappear(entries, now);
            && t <= MaxTimestamp
            && (forall k :: 0 <= k < |entries| && !Expired(entries[k], now) ==> t <= entries[k].disappearTime)
            && (t == MaxTimestamp || exists k :: 0 <= k < |entries| && !Expired(entries[k], now) && entries[k].disappearTime == t)
  {
    if entries != [] {
      var front := entries[..|entries| - 1];
      NextDisappearIsMinimum(front, now);
      var t := NextDisappear(entries, now);
      forall k | 0 <= k < |entries| && !Expired(entries[k], now)
        ensures t <= entries[k].disappearTime
      {
        if k < |front| {
          assert entries[k] == front[k];
        }
      }
      if t != MaxTimestamp && t != entries[|entries| - 1].disappearTime {
        var k :| 0 <= k < |front| && !Expired(front[k], now) && front[k].disappearTime == t;
        assert entries[k] == front[k];
      }
    }
  }

  /** The entries that have not expired, in order. */
  function Live(entries: seq<Entry>, now: int): (live: seq<Entry>)
    ensures |live| <= |entries|
    ensures forall k :: 0 <= k < |live| ==> !Expired(live[k], now)
    ensures forall e :: e in live <==> e in entries && !Expired(e, now)
  {
    if entries == [] then []
    else
      var e := entries[|entries| - 1];
      assert entries == entries[..|entries| - 1] + [e];
      Live(entries[..|entries| - 1], now) + (if Expired(e, now) then [] else [e])
  }

  /** Filtering keeps the order: the live entries of two lists one after the
      other are those of the first, then those of the second. */
  lemma {:induction false} LiveAppend(a: seq<Entry>, b: seq<Entry>, now: int)
    ensures Live(a + b, now) == Live(a, now) + Live(b, now)
    decreases |b|
  {
    if b != [] {
      var e := b[|b| - 1];
      var front := b[..|b| - 1];
      assert (a + b)[..|a + b| - 1] == a + front;
      LiveAppend(a, front, now);
      var tail := if Expired(e, now) then [] else [e];
      assert Live(a + b, now) == Live(a + front, now) + tail;
      assert Live(b, now) == Live(front, now) + tail;
    } else {
      assert a + b == a;
    }
  }

  /** Nothing expired, nothing dropped. */
  lemma {:induction false} LiveAllKept(entries: seq<Entry>, now: int)
    requires forall k :: 0 <= k < |entries| ==> !Expired(entries[k], now)
    ensures Live(entries, now) == entries
    decreases |entries|
  {
    if entries != [] {
      var front := entries[..|entries| - 1];
      var e := entries[|entries| - 1];
      forall k | 0 <= k < |front|
        ensures !Expired(front[k], now)
      {
        assert front[k] == entries[k];
      }
      LiveAllKept(front, now);
      assert !Expired(e, now);
      assert Live(entries, now) == Live(front, now) + [e];
      assert entries == front + [e];
    }
  }

  /** A closed chat box shows exactly the live entries; an open one shows every entry
      whatever the time. */
  lemma {:induction false} ClosedShowsLive(entries: seq<Entry>, now: int, later: int)
    ensures Rendered(entries, now, false) == Rendered(Live(entries, now), later, true)
  {
    if entries != [] {
      var e := entries[|entries| - 1];
      var front := entries[..|entries| - 1];
      assert entries == front + [e];
      ClosedShowsLive(front, now, later);
      RenderedSnoc(front, e, now, false);
      assert Live(entries, now) == Live(front, now) + (if Expired(e, now) then [] else [e]);
      if !Expired(e, now) {
        RenderedSnoc(Live(front, now), e, later, true);
      } else {
        assert Live(entries, now) == Live(front, now);
      }
    }
  }

  lemma RenderedSnoc(entries: seq<Entry>, e: Entry, now: int, open: bool)
    ensures Rendered(entries + [e], now, open) == Rendered(entries, now, open) + (if Shown(e, now, open) then EntryOps(e) else [])
  {
    assert (entries + [e])[..|entries|] == entries;
  }

  lemma {:induction false} OpenShowsAll(entries: seq<Entry>, now: int, later: int)
    ensures Rendered(entries, now, true) == Rendered(entries, later, true)
  {
    if entries != [] {
      OpenShowsAll(entries[..|entries| - 1], now, later);
    }
  }

  // ---------------------------------------------------------------------------
  // The specification of `PrintMessage`

  /** The entry list after `PrintMessage`: the oldest entry is dropped when the list
      is full, then the new one is appended. */
  function Pushed(entries: seq<Entry>, maxLines: nat, e: Entry): (r: seq<Entry>)
    ensures |r| > 0 && r[|r| - 1] == e
    ensures |entries| <= maxLines && maxLines > 0 ==> |r| <= maxLines
    ensures |r| == if |entries| >= maxLines && entries != [] then |entries| else |entries| + 1
    ensures r[..|r| - 1] == entries[|entries| - (|r| - 1)..]
  {
    var kept := if |entries| >= maxLines && entries != [] then entries[1..] else entries;
    assert (kept + [e])[..|kept|] == kept;
    kept + [e]
  }

  // ---------------------------------------------------------------------------
  // The widget

  class Chatbox {
    /** `Constants::ChatMaxLines` and `Constants::ChatPlayerMessageDisplayTime`. */
    const maxLines: nat
    const playerMessageDisplayTime: int
    var entries: seq<Entry>
    var nextDisappearTime: int
    /** Whether the text entry box is visible, which is what "open" means. */
    var isOpen: bool
    var enteringText: string
    var history: seq<TextOp>
    /** The messages `OnChatMessage` announced so far. */
    var chatMessages: seq<string>

    ghost predicate Valid()
      reads this
    {
      maxLines > 0 && |entries| <= maxLines
    }

    constructor(chatMaxLines: nat, displayTime: int, now: int)
      requires chatMaxLines > 0
      ensures Valid() && maxLines == chatMaxLines && playerMessageDisplayTime == displayTime
      ensures entries == [] && !isOpen && enteringText == [] && chatMessages == []
      ensures nextDisappearTime == MaxTimestamp && history == []
    {
      maxLines := chatMaxLines;
      playerMessageDisplayTime := displayTime;
      entries := [];
      isOpen := false;
      enteringText := [];
      chatMessages := [];
      nextDisappearTime := MaxTimestamp;
      history := [];
      new;
      Refresh(now);
    }

    /** `Clear`: the entries and the history go; the next disappearance time is left
        as it was. */
    method Clear()
      modifies this`entries, this`history
      ensures entries == [] && history == []
      ensures Valid() <==> maxLines > 0
    {
      entries := [];
      history := [];
    }

    /** `Open(shouldOpen)`: a change of state shows or hides the entry box (hiding
        clears its text) and refreshes; asking for the current state does nothing. */
    method Open(shouldOpen: bool, now: int)
      modifies this`isOpen, this`enteringText, this`nextDisappearTime, this`history
      ensures isOpen == shouldOpen
      ensures old(isOpen) == shouldOpen ==>
                enteringText == old(enteringText) && nextDisappearTime == old(nextDisappearTime) && history == old(history)
      ensures old(isOpen) != shouldOpen ==>
                && enteringText == (if shouldOpen then old(enteringText) else [])
                && nextDisappearTime == NextDisappear(entries, now)
                && history == Rendered(entries, now, shouldOpen)
    {
      if isOpen != shouldOpen {
        isOpen := shouldOpen;
        if !shouldOpen {
          enteringText := [];
        }
        Refresh(now);
      }
    }

    /** `PrintMessage(items, disappearTime)`. */
    method PrintMessage(items: seq<Item>, displayTime: int, now: int)
      requires Valid()
      modifies this`entries, this`nextDisappearTime, this`history
      ensures Valid()
      ensures entries == Pushed(old(entries), maxLines, Entry(items, now + displayTime))
      ensures nextDisappearTime == NextDisappear(entries, now) && history == Rendered(entries, now, isOpen)
    {
      if |entries| >= maxLines {
        entries := entries[1..];
      }
      entries := entries + [Entry(items, now + displayTime)];
      Refresh(now);
    }

    /** `PrintMessage(items)`: a player's message, shown for the player-message time. */
    method PrintPlayerMessage(items: seq<Item>, now: int)
      requires Valid()
      modifies this`entries, this`nextDisappearTime, this`history
      ensures Valid()
      ensures entries == Pushed(old(entries), maxLines, Entry(items, now + playerMessageDisplayTime))
      ensures nextDisappearTime == NextDisappear(entries, now) && history == Rendered(entries, now, isOpen)
    {
      PrintMessage(items, playerMessageDisplayTime, now);
    }

    /** `SendMessage`: the typed text is announced unless it is empty. */
    method SendMessage()
      modifies this`chatMessages
      ensures chatMessages == old(chatMessages) + (if enteringText == [] then [] else [enteringText])
    {
      if enteringText != [] {
        chatMessages := chatMessages + [enteringText];
      }
    }

    /** `Update`: a refresh once the next disappearance time has passed. */
    method Update(now: int)
      modifies this`nextDisappearTime, this`history
      ensures now > old(nextDisappearTime) ==>
                nextDisappearTime == NextDisappear(entries, now) && history == Rendered(entries, now, isOpen)
      ensures now <= old(nextDisappearTime) ==>
                nextDisappearTime == old(nextDisappearTime) && history == old(history)
    {
      if now > nextDisappearTime {
        Refresh(now);
      }
    }

    /** `Refresh`: the history is rebuilt and the next disappearance time recomputed. */
    method Refresh(now: int)
      modifies this`nextDisappearTime, this`history
      ensures nextDisappearTime == NextDisappear(entries, now)
      ensures history == Rendered(entries, now, isOpen)
    {
      var es, open := entries, isOpen;
      var next, shown := MaxTimestamp, [];
      for i := 0 to |es|
        invariant next == NextDisappear(es[..i], now)
        invariant shown == Rendered(es[..i], now, open)
      {
        var entry := es[i];
        RefreshUnfold(es, i, now, open);
        if now > entry.disappearTime {
          if !open {
            continue;
          }
        } else {
          next := Min(next, entry.disappearTime);
        }
        var ops := RenderItems(entry.items);
        shown := shown + (ops + [SetTextColor(White), AppendText("\n")]);
      }
      assert es[..|es|] == es;
      nextDisappearTime, history := next, shown;
    }

    static lemma RefreshUnfold(entries: seq<Entry>, i: nat, now: int, open: bool)
      requires i < |entries|
      ensures var e := entries[i];
              && NextDisappear(entries[..i + 1], now) ==
                   (if Expired(e, now) then NextDisappear(entries[..i], now) else Min(NextDisappear(entries[..i], now), e.disappearTime))
              && Rendered(entries[..i + 1], now, open) ==
                   Rendered(entries[..i], now, open) + (if Shown(e, now, open) then EntryOps(e) else [])
    {
      assert entries[..i + 1][..i] == entries[..i];
    }

    /** The item loop of `Refresh`. */
    static method RenderItems(items: seq<Item>) returns (ops: seq<TextOp>)
      ensures ops == ItemOps(items)
    {
      ops := [];
      for k := 0 to |items|
        invariant ops == ItemOps(items[..k])
      {
        assert items[..k + 1][..k] == items[..k];
        match items[k]
        case ColorItem(c) =>
          ops := ops + [SetTextColor(c)];
        case TextItem(t) =>
          if t != [] {
            ops := ops + [AppendText(t)];
          }
      }
      assert items[..|items|] == items;
    }
  }
}
