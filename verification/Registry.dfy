/** The registration server's own work: its table of clients with the circular search for a
    free place, the conversion between numbers and their decimal texts, and the in-place
    reversal of a message. */
module Registry {
  import opened Runs
  import opened CStrings

  const MAX_CLIENTS := 10

  /** pid 0 marks a free place. */
  datatype Slot = Slot(pid: int, qid: int)

  const NO_CLIENT := Slot(0, 0)

  /** The first index in lo .. hi that holds pid. */
  function FirstWith(slots: seq<Slot>, pid: int, lo: nat, hi: nat): (r: Option<nat>)
    requires lo <= hi <= |slots|
    ensures r.Some? ==> lo <= r.value < hi && slots[r.value].pid == pid
    ensures r.Some? ==> forall i :: lo <= i < r.value ==> slots[i].pid != pid
    ensures r.None? ==> forall i :: lo <= i < hi ==> slots[i].pid != pid
    decreases hi - lo
  {
    if lo == hi then None
    else if slots[lo].pid == pid then Some(lo)
    else FirstWith(slots, pid, lo + 1, hi)
  }

  /** The place for a new client: the first free one from `next` on, going round. */
  function FreePlace(slots: seq<Slot>, next: nat): (r: Option<nat>)
    requires next <= |slots|
  {
    match FirstWith(slots, 0, next, |slots|)
    case Some(i) => Some(i)
    case None => FirstWith(slots, 0, 0, next)
  }

  /** A place is found exactly if there is one. */
  lemma FreePlaceIff(slots: seq<Slot>, next: nat)
    requires next <= |slots|
    ensures FreePlace(slots, next).Some? <==> exists i :: 0 <= i < |slots| && slots[i].pid == 0
    ensures FreePlace(slots, next).Some? ==>
              FreePlace(slots, next).value < |slots| && slots[FreePlace(slots, next).value].pid == 0
  {
  }

  class Table {
    const slots: array<Slot>
    var client_no: nat

    ghost predicate Valid()
      reads this
    {
      slots.Length == MAX_CLIENTS && client_no < MAX_CLIENTS
    }

    constructor ()
      ensures Valid() && fresh(slots) && slots.Length == 10 && client_no == 0
      ensures forall i :: 0 <= i < MAX_CLIENTS ==> slots[i] == NO_CLIENT
    {
      slots := new Slot[MAX_CLIENTS](_ => NO_CLIENT);
      client_no := 0;
    }

    /** The sender's place, or MAX_CLIENTS when it has none. */
    method Lookup(pid: int) returns (i: nat)
      requires Valid()
      ensures i == match FirstWith(slots[..], pid, 0, MAX_CLIENTS) case Some(k) => k case None => MAX_CLIENTS
    {
      i := 0;
      while i < MAX_CLIENTS
        invariant i <= MAX_CLIENTS
        invariant FirstWith(slots[..], pid, 0, MAX_CLIENTS) == FirstWith(slots[..], pid, i, MAX_CLIENTS)
      {
        if slots[i].pid == pid { break; }
        i := i + 1;
      }
    }

    /** START: the loop goes round at most twice; it finds a place exactly if one is free. */
    method Admit(pid: int, qid: int) returns (place: Option<nat>)
      requires Valid()
      modifies this`client_no, slots
      ensures Valid()
      ensures place == FreePlace(old(slots[..]), old(client_no))
      ensures place.None? ==> slots[..] == old(slots[..]) && client_no == 0
      ensures place.Some? ==> client_no == place.value && slots[..] == old(slots[..])[place.value := Slot(pid, qid)]
    {
      var flag := 0;
      while slots[client_no].pid != 0
        invariant Valid() && 0 <= flag <= 2 && slots[..] == old(slots[..])
        invariant flag == 0 ==> old(client_no) <= client_no
        invariant flag == 0 ==> forall i :: old(client_no) <= i < client_no ==> slots[i].pid != 0
        invariant flag >= 1 ==> forall i :: old(client_no) <= i < MAX_CLIENTS ==> slots[i].pid != 0
        invariant flag == 1 ==> forall i :: 0 <= i < client_no ==> slots[i].pid != 0
        invariant flag == 2 ==> client_no == 0 && forall i :: 0 <= i < MAX_CLIENTS ==> slots[i].pid != 0
        decreases 2 - flag, MAX_CLIENTS - client_no
      {
        if flag < 2 {
          client_no := client_no + 1;
          if client_no == MAX_CLIENTS {
            client_no := 0;
            flag := flag + 1;
          }
        } else {
          break;
        }
      }
      FreePlaceIs(old(slots[..]), old(client_no), client_no, flag);
      if flag == 2 { return None; }
      slots[client_no] := Slot(pid, qid);
      return Some(client_no);
    }

    /** STOP: the sender's place becomes free. */
    method Delete(i: nat)
      requires Valid() && i < MAX_CLIENTS
      modifies slots
      ensures slots[..] == old(slots[..])[i := NO_CLIENT]
    {
      slots[i] := NO_CLIENT;
    }
  }

  lemma FreePlaceIs(slots: seq<Slot>, next: nat, k: nat, flag: nat)
    requires next < |slots| && k < |slots|
    requires flag == 0 ==> next <= k && (forall i :: next <= i < k ==> slots[i].pid != 0)
    requires flag >= 1 ==> forall i :: next <= i < |slots| ==> slots[i].pid != 0
    requires flag == 1 ==> forall i :: 0 <= i < k ==> slots[i].pid != 0
    requires flag == 2 ==> forall i :: 0 <= i < |slots| ==> slots[i].pid != 0
    requires flag < 2 ==> slots[k].pid == 0
    requires flag <= 2
    ensures FreePlace(slots, next) == if flag == 2 then None else Some(k)
  {
  }

  /** A decimal digit's value. */
  function Digit(c: char): int { c as int - '0' as int }

  /** The value stringToInt computes, whatever the characters. */
  function Value(s: string): int {
    if s == [] then 0 else 10 * Value(s[..|s| - 1]) + Digit(s[|s| - 1])
  }

  /** sprintf of %d for a number that is not negative. */
  function Decimal(n: nat): (s: string)
    ensures s != [] && forall i :: 0 <= i < |s| ==> '0' <= s[i] <= '9'
  {
    (if n < 10 then [] else Decimal(n / 10)) + [(n % 10 + '0' as int) as char]
  }

  /** The digits count from 0 to 9, and one more digit multiplies by ten what stands before it. */
  lemma DigitsCount(s: string, c: char)
    ensures Value("") == 0 && Digit('0') == 0
    ensures '0' <= c < '9' ==> Digit((c as int + 1) as char) == Digit(c) + 1
    ensures Value(s + [c]) == 10 * Value(s) + Digit(c)
  {
    assert (s + [c])[..|s|] == s;
  }

  method StringToInt(s: string) returns (result: int)
    ensures result == Value(s)
    ensures forall n: nat :: s == Decimal(n) ==> result == n
  {
    result := 0;
    for i := 0 to |s|
      invariant result == Value(s[..i])
    {
      assert s[..i + 1][..i] == s[..i];
      result := result * 10;
      result := result + Digit(s[i]);
    }
    assert s[..|s|] == s;
    forall n: nat | s == Decimal(n) ensures result == n { ValueOfDecimal(n); }
  }

  lemma {:induction false} ValueOfDecimal(n: nat)
    ensures Value(Decimal(n)) == n
  {
    if n >= 10 {
      ValueOfDecimal(n / 10);
      assert Decimal(n)[..|Decimal(n)| - 1] == Decimal(n / 10);
    }
  }

  /** A number's text never starts with 0, except that of 0 itself: with ValueOfDecimal, the
      two conversions are inverse to each other on such texts. */
  lemma {:induction false} DecimalOfValue(s: string)
    requires s != [] && (forall i :: 0 <= i < |s| ==> '0' <= s[i] <= '9') && (s[0] == '0' ==> |s| == 1)
    ensures Value(s) >= 0 && Decimal(Value(s)) == s
    ensures s[0] != '0' ==> Value(s) > 0
  {
    var front, last := s[..|s| - 1], s[|s| - 1];
    if |s| > 1 {
      DecimalOfValue(front);
      assert Value(s) / 10 == Value(front) && Value(s) % 10 == Digit(last);
    }
    assert s == front + [last];
    if |s| == 1 { assert front == []; assert Value(front) == 0; }
  }

  function Reversed(s: string): (r: string)
    ensures |r| == |s| && forall k :: 0 <= k < |s| ==> r[k] == s[|s| - 1 - k]
  {
    if s == [] then [] else Reversed(s[1..]) + [s[0]]
  }

  /** The state of the buffer after j turns of the MIRROR loop. */
  ghost predicate HalfMirrored(now: seq<char>, was: seq<char>, len: nat, j: nat) {
    && |now| == |was| && len < |was|
    && (forall k :: 0 <= k < len && (k < j || k >= len - j) ==> now[k] == was[len - 1 - k])
    && (forall k :: j <= k < len - j ==> now[k] == was[k])
    && (forall k :: len <= k < |was| ==> now[k] == was[k])
  }

  /** MIRROR: the text is reversed in place; its length is looked up again in every turn. */
  method Mirror(msg: array<char>)
    requires '\0' in msg[..]
    modifies msg
    ensures '\0' in msg[..] && StringIn(msg[..]) == Reversed(StringIn(old(msg[..])))
  {
    hide StringIn, HalfMirrored;
    ghost var was := msg[..];
    var j := 0;
    var len := Strlen(msg);
    NothingMirrored(was);
    while j < len / 2
      invariant len == |StringIn(was)| < msg.Length == |was| && 0 <= j <= len / 2
      invariant '\0' in msg[..] && |StringIn(msg[..])| == len
      invariant HalfMirrored(msg[..], was, len, j)
    {
      OneMoreMirrored(msg[..], was, len, j);
      var tmp := msg[j];
      msg[j] := msg[len - j - 1];
      msg[len - j - 1] := tmp;
      j := j + 1;
      MirroredLength(msg[..], was, j);
      len := Strlen(msg);
    }
    WhenMirrored(msg[..], was, j);
  }

  lemma NothingMirrored(was: seq<char>)
    requires '\0' in was
    ensures HalfMirrored(was, was, |StringIn(was)|, 0)
  {
  }

  lemma OneMoreMirrored(now: seq<char>, was: seq<char>, len: nat, j: nat)
    requires HalfMirrored(now, was, len, j) && j < len / 2
    ensures len < |now|
    ensures HalfMirrored(now[j := now[len - j - 1]][len - j - 1 := now[j]], was, len, j + 1)
  {
  }

  /** Swapping characters of the text does not change where it ends. */
  lemma MirroredLength(now: seq<char>, was: seq<char>, j: nat)
    requires '\0' in was && HalfMirrored(now, was, |StringIn(was)|, j) && 2 * j <= |StringIn(was)|
    ensures '\0' in now && |StringIn(now)| == |StringIn(was)|
  {
    var s := StringIn(was);
    var n := |s|;
    forall k | 0 <= k < n ensures now[k] != '\0' {
      assert s[k] in s && s[n - 1 - k] in s;
    }
    StringIs(now, now[..n]);
  }

  lemma MirroredAt(now: seq<char>, was: seq<char>, len: nat, j: nat, k: nat)
    requires HalfMirrored(now, was, len, j) && j == len / 2 && k < len
    ensures now[k] == was[len - 1 - k]
  {
    if j <= k < len - j { assert k == len - 1 - k; }
  }

  lemma IsReversed(s: string, t: string)
    requires |t| == |s| && forall k :: 0 <= k < |s| ==> t[k] == s[|s| - 1 - k]
    ensures t == Reversed(s)
  {
  }

  lemma MirroredText(now: seq<char>, was: seq<char>, t: string, s: string, j: nat)
    requires s <= was && t <= now && |t| == |s| && HalfMirrored(now, was, |s|, j) && j == |s| / 2
    ensures t == Reversed(s)
  {
    hide Reversed, HalfMirrored;
    forall k | 0 <= k < |s| ensures t[k] == s[|s| - 1 - k] {
      MirroredAt(now, was, |s|, j, k);
    }
    IsReversed(s, t);
  }

  lemma WhenMirrored(now: seq<char>, was: seq<char>, j: nat)
    requires '\0' in was && '\0' in now && |StringIn(now)| == |StringIn(was)|
    requires HalfMirrored(now, was, |StringIn(was)|, j) && j == |StringIn(was)| / 2
    ensures StringIn(now) == Reversed(StringIn(was))
  {
    hide StringIn, Reversed, HalfMirrored;
    MirroredText(now, was, StringIn(now), StringIn(was), j);
  }
}
