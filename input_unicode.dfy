/** Unicode keyboard input of the X11 module
    (module/X11/service/rdpInputUnicode.c): the mapping of a UCS code point
    to an X keysym, the key events emitted for one character, and the queue
    the RDP input handler posts characters to.

    The X display calls that turn a keysym into a keycode and decide whether
    shift is needed are foreign, so the keycode and the shift keycode are
    parameters of the model. */
module InputUnicode {
  import opened Base
  import opened KeysymTable

  /** compare_ucs: -1, 0 or 1 as the key is below, equal to or above the
      entry's ucs. */
  function CompareUcs(key: u32, entry: CodePair): (r: int)
    ensures r == -1 <==> key < entry.ucs
    ensures r == 0 <==> key == entry.ucs
    ensures r == 1 <==> key > entry.ucs
  {
    if key < entry.ucs then -1
    else if key > entry.ucs then 1
    else 0
  }

  /** The C library's bsearch over t[lo..hi) with compare_ucs, halving as
      glibc does. A hit is an entry with the key's ucs; over a sorted table
      a miss means no entry has it. */
  function Search(t: seq<CodePair>, key: u32, lo: nat, hi: nat): (r: Option<nat>)
    requires lo <= hi <= |t|
    ensures r.Some? ==> lo <= r.value < hi && t[r.value].ucs == key
    ensures r.None? && SortedByUcs(t) ==> forall i | lo <= i < hi :: t[i].ucs != key
    decreases hi - lo
  {
    if lo >= hi then None
    else
      var mid := (lo + hi) / 2;
      var c := CompareUcs(key, t[mid]);
      if c < 0 then Search(t, key, lo, mid)
      else if c > 0 then Search(t, key, mid + 1, hi)
      else Some(mid)
  }

  /** Code points the X keysym space shares with Latin-1. */
  predicate IsLatin1(ucs: u32) {
    (0x20 <= ucs <= 0x7e) || (0xa0 <= ucs <= 0xff)
  }

  const DirectUcsFlag: nat := 0x0100_0000

  /** `ucs | 0x01000000`: bit 24 set, every other bit kept. */
  function SetDirectUcsFlag(ucs: u32): u32 {
    if (ucs / DirectUcsFlag) % 2 == 1 then ucs else ucs + DirectUcsFlag
  }

  /** A 24-bit code point is encoded as 0x01000000 plus itself, which is how
      X decodes a directly encoded UCS keysym back to the code point. */
  lemma DirectUcsRoundTrip(ucs: u32)
    requires ucs < DirectUcsFlag
    ensures SetDirectUcsFlag(ucs) >= DirectUcsFlag
    ensures SetDirectUcsFlag(ucs) - DirectUcsFlag == ucs
  {
  }

  /** unicode_to_keysym. */
  function UnicodeToKeysym(ucs: u32): nat {
    if IsLatin1(ucs) then ucs
    else match Search(Table, ucs, 0, |Table|)
      case Some(i) => Table[i].keysym
      case None => SetDirectUcsFlag(ucs)
  }

  /** Latin-1 maps to itself; otherwise a code point in the table gets the
      keysym of an entry with that ucs (with duplicates, any one of them),
      and one absent from it gets the directly encoded keysym. */
  lemma UnicodeToKeysymCases(ucs: u32)
    ensures IsLatin1(ucs) ==> UnicodeToKeysym(ucs) == ucs
    ensures !IsLatin1(ucs) && (exists i | 0 <= i < |Table| :: Table[i].ucs == ucs) ==>
      exists i | 0 <= i < |Table| :: Table[i].ucs == ucs && UnicodeToKeysym(ucs) == Table[i].keysym
    ensures !IsLatin1(ucs) && (forall i | 0 <= i < |Table| :: Table[i].ucs != ucs) ==>
      UnicodeToKeysym(ucs) == SetDirectUcsFlag(ucs)
  {
    TableSorted();
    if !IsLatin1(ucs) {
      var r := Search(Table, ucs, 0, |Table|);
      if r.Some? {
        assert Table[r.value].ucs == ucs;
      }
    }
  }

  /** keysymtab is not strictly ordered: U+2227 (lines 571-572) appears
      twice, with keysyms 0x8de and 0xba9. */
  lemma TableHasDuplicateUcs()
    ensures Table[547] == CodePair(0x8de, 0x2227)
    ensures Table[548] == CodePair(0xba9, 0x2227)
  {
    assert Chunk17[3] == CodePair(0x8de, 0x2227);
    assert Chunk17[4] == CodePair(0xba9, 0x2227);
  }

  // ---------------------------------------------------------------------
  // Key events
  // ---------------------------------------------------------------------

  datatype KeyAction = KeyPress | KeyRelease

  /** One `enqueueKey(type, keycode)` call. */
  datatype KeyEvent = KeyEvent(action: KeyAction, code: byte)

  /** The calls add_unicode_event_async makes for a keycode and a shift
      keycode, 0 meaning none. */
  function KeySequence(code: byte, shiftCode: byte): seq<KeyEvent> {
    if code == 0 then []
    else
      (if shiftCode != 0 then [KeyEvent(KeyPress, shiftCode)] else [])
      + [KeyEvent(KeyPress, code), KeyEvent(KeyRelease, code)]
      + (if shiftCode != 0 then [KeyEvent(KeyRelease, shiftCode)] else [])
  }

  /** How an event moves the count of presses minus releases of key k. */
  function Delta(e: KeyEvent, k: byte): int {
    if e.code != k then 0 else if e.action == KeyPress then 1 else -1
  }

  /** Presses minus releases of key k in s. */
  function Held(s: seq<KeyEvent>, k: byte): int {
    if s == [] then 0 else Held(s[..|s| - 1], k) + Delta(s[|s| - 1], k)
  }

  lemma HeldAppend(s: seq<KeyEvent>, e: KeyEvent, k: byte)
    ensures Held(s + [e], k) == Held(s, k) + Delta(e, k)
  {
    assert (s + [e])[..|s|] == s;
  }

  /** No key is released more often than pressed at any point of s. */
  predicate NeverReleasedUnpressed(s: seq<KeyEvent>) {
    forall n, k: byte | 0 <= n <= |s| :: Held(s[..n], k) >= 0
  }

  /** The sequence for a character: empty for keycode 0; otherwise the
      character key is pressed and released inside the optional shift press
      and release; every key ends up released, and none is released before
      it is pressed. */
  lemma KeySequenceBalanced(code: byte, shiftCode: byte)
    ensures code == 0 ==> KeySequence(code, shiftCode) == []
    ensures code != 0 && shiftCode == 0 ==>
      KeySequence(code, shiftCode) == [KeyEvent(KeyPress, code), KeyEvent(KeyRelease, code)]
    ensures code != 0 && shiftCode != 0 ==>
      && |KeySequence(code, shiftCode)| == 4
      && KeySequence(code, shiftCode)[0] == KeyEvent(KeyPress, shiftCode)
      && KeySequence(code, shiftCode)[3] == KeyEvent(KeyRelease, shiftCode)
    ensures forall k: byte :: Held(KeySequence(code, shiftCode), k) == 0
    ensures NeverReleasedUnpressed(KeySequence(code, shiftCode))
  {
    var s := KeySequence(code, shiftCode);
    forall n, k: byte | 0 <= n <= |s| ensures Held(s[..n], k) >= 0 {
      HeldPrefixes(code, shiftCode, k);
    }
    forall k: byte ensures Held(s, k) == 0 {
      HeldPrefixes(code, shiftCode, k);
    }
  }

  /** Held along every prefix of one character's key sequence, built up
      event by event. */
  lemma HeldPrefixes(code: byte, shiftCode: byte, k: byte)
    ensures Held(KeySequence(code, shiftCode), k) == 0
    ensures forall n | 0 <= n <= |KeySequence(code, shiftCode)| :: Held(KeySequence(code, shiftCode)[..n], k) >= 0
  {
    var s := KeySequence(code, shiftCode);
    assert s[..0] == [];
    if code != 0 {
      var p1 := KeyEvent(KeyPress, code);
      var r1 := KeyEvent(KeyRelease, code);
      var inner := [p1, r1];
      HeldAppend([], p1, k);
      HeldAppend([p1], r1, k);
      assert [] + [p1] == [p1] && [p1] + [r1] == inner;
      if shiftCode == 0 {
        assert s[..1] == [p1] && s[..2] == s == inner;
      } else {
        var p0 := KeyEvent(KeyPress, shiftCode);
        var r0 := KeyEvent(KeyRelease, shiftCode);
        HeldAppend([], p0, k);
        HeldAppend([p0], p1, k);
        HeldAppend([p0, p1], r1, k);
        HeldAppend([p0, p1, r1], r0, k);
        assert [] + [p0] == [p0] && [p0] + [p1] == [p0, p1];
        assert [p0, p1] + [r1] == [p0, p1, r1] && [p0, p1, r1] + [r0] == [p0, p1, r1, r0];
        assert s == [p0, p1, r1, r0];
        assert s[..1] == [p0] && s[..2] == [p0, p1] && s[..3] == [p0, p1, r1] && s[..4] == s;
      }
    }
  }

  /** The receiver of `enqueueKey` calls: the X server's key event queue. */
  class KeySink {
    var events: seq<KeyEvent>

    constructor ()
      ensures events == []
    {
      events := [];
    }

    /** `enqueueKey(action, code)`. */
    method Enqueue(action: KeyAction, code: byte)
      modifies this
      ensures events == old(events) + [KeyEvent(action, code)]
    {
      events := events + [KeyEvent(action, code)];
    }
  }

  /** `struct UnicodeAsyncData`: the character, its flags and the callback
      that takes its key events. */
  datatype UnicodeAsyncData = UnicodeAsyncData(unicode: u32, flags: u32, enqueueKey: KeySink)

  /** add_unicode_event_async, given the keycode and shift keycode the X
      display yields for the character (0 when it has no key or the display
      cannot be opened): exactly KeySequence is appended to the callback's
      queue. */
  method AddUnicodeEventAsync(data: UnicodeAsyncData, code: byte, shiftCode: byte)
    modifies data.enqueueKey
    ensures data.enqueueKey.events == old(data.enqueueKey.events) + KeySequence(code, shiftCode)
  {
    if code == 0 {
      return;
    }
    if shiftCode != 0 {
      data.enqueueKey.Enqueue(KeyPress, shiftCode);
    }
    data.enqueueKey.Enqueue(KeyPress, code);
    data.enqueueKey.Enqueue(KeyRelease, code);
    if shiftCode != 0 {
      data.enqueueKey.Enqueue(KeyRelease, shiftCode);
    }
  }

  /** `g_unicodeInputQueue`: characters waiting for the worker thread. */
  class UnicodeInputQueue {
    var items: seq<UnicodeAsyncData>

    constructor ()
      ensures items == []
    {
      items := [];
    }

    /** postUnicodeInputEvent: when the record can be allocated, exactly one
        record with the character, flags and callback is enqueued; otherwise
        nothing. */
    method Post(unicode: u32, flags: u32, enqueueKey: KeySink, allocOk: bool)
      modifies this
      ensures items == old(items) + (if allocOk then [UnicodeAsyncData(unicode, flags, enqueueKey)] else [])
    {
      if allocOk {
        items := items + [UnicodeAsyncData(unicode, flags, enqueueKey)];
      }
    }
  }
}
