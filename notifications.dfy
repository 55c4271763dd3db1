/*
 * The battle screen's turn notifications: the text its event listener builds
 * for each battle event (src/main.cpp:1212-1370), the "." every queued
 * notification receives, the enemy-shake amount some events set, and the
 * message the queue is flushed into (each entry followed by a newline).
 */
module Notifications {
  import opened Battle

  /** C++'s (int) cast of a float: truncation toward zero (out-of-range casts not modelled). */
  function Truncate(x: real): (i: int)
    ensures x >= 0.0 ==> 0 <= i && i as real <= x < i as real + 1.0
    ensures x < 0.0 ==> i <= 0 && i as real - 1.0 < x <= i as real
  {
    if x >= 0.0 then x.Floor else -((-x).Floor)
  }

  /** The decimal digit for 0..9. */
  function DigitChar(d: nat): char
    requires d < 10
  {
    "0123456789"[d]
  }

  /** The value of a decimal digit character. */
  function DigitValue(c: char): nat
  {
    if '0' <= c <= '9' then (c - '0') as nat else 0
  }

  /** std::to_string of a non-negative integer: decimal digits, no leading zero. */
  function NatToString(n: nat): (s: string)
    ensures |s| > 0
    ensures forall k :: 0 <= k < |s| ==> '0' <= s[k] <= '9'
    ensures |s| > 1 ==> s[0] != '0'
    decreases n
  {
    if n < 10 then [DigitChar(n)] else NatToString(n / 10) + [DigitChar(n % 10)]
  }

  /** Reading decimal digits back as a number. */
  function ParseNat(s: string): nat
  {
    if s == [] then 0 else ParseNat(s[..|s| - 1]) * 10 + DigitValue(s[|s| - 1])
  }

  /** Printing a number and reading it back gives the number. */
  lemma {:induction false} ParseNatToString(n: nat)
    ensures ParseNat(NatToString(n)) == n
    decreases n
  {
    if n < 10 {
      assert NatToString(n)[..0] == [];
    } else {
      var s := NatToString(n);
      assert s[..|s| - 1] == NatToString(n / 10);
      ParseNatToString(n / 10);
    }
  }

  /** std::to_string of an int. */
  function IntToString(i: int): (s: string)
    ensures |s| > 0
    ensures i < 0 <==> s[0] == '-'
  {
    if i < 0 then "-" + NatToString(-i) else NatToString(i)
  }

  /** Reading the text of IntToString back as an int. */
  function ParseInt(s: string): int
  {
    if |s| > 0 && s[0] == '-' then -(ParseNat(s[1..]) as int) else ParseNat(s)
  }

  /** A minus sign in front of digits reads back as the negated number. */
  lemma ParseIntNegative(digits: string)
    ensures ParseInt("-" + digits) == -(ParseNat(digits) as int)
  {
    assert ("-" + digits)[1..] == digits;
  }

  /** The digits of a natural number read back as that number. */
  lemma ParseIntOfDigits(n: nat)
    ensures ParseInt(NatToString(n)) == n
  {
    var digits := NatToString(n);
    assert '0' <= digits[0] <= '9';
    ParseNatToString(n);
  }

  /** The text of a negative int, a minus sign before the digits of n, reads back as -n. */
  lemma ParseIntOfNegated(n: nat)
    requires n > 0
    ensures ParseInt(IntToString(-(n as int))) == -(n as int)
  {
    assert IntToString(-(n as int)) == "-" + NatToString(n);
    ParseIntNegative(NatToString(n));
    ParseNatToString(n);
  }

  /** Printing an int and reading it back gives the int. */
  lemma ParseIntToString(i: int)
    ensures ParseInt(IntToString(i)) == i
  {
    if i < 0 {
      ParseIntOfNegated(-i);
    } else {
      assert IntToString(i) == NatToString(i);
      ParseIntOfDigits(i);
    }
  }

  const PlayerName: string := "The player "
  const EnemyName: string := "The enemy "

  /** m_health: " <amount truncated> health points". */
  function HealthText(x: real): string
  {
    " " + IntToString(Truncate(x)) + " health points"
  }

  /** m_shield: " <amount truncated> shield points". */
  function ShieldText(x: real): string
  {
    " " + IntToString(Truncate(x)) + " shield points"
  }

  predicate IsPlayerEvent(e: BattleEvent)
  {
    e.PlayerDamaged? || e.PlayerShieldDamaged? || e.PlayerHealed? || e.PlayerShieldHealed?
  }

  /** The text the event listener queues for an event, before the "." is added. */
  function Describe(e: BattleEvent): (s: string)
    ensures IsPlayerEvent(e) ==> |s| > |PlayerName| && s[..|PlayerName|] == PlayerName
    ensures !IsPlayerEvent(e) ==> |s| > |EnemyName| && s[..|EnemyName|] == EnemyName
  {
    match e
    case EnemyDamaged(a) => EnemyName + "was damaged for\n" + HealthText(Truncate(a) as real)
    case PlayerDamaged(a) => PlayerName + "was damaged for\n" + HealthText(Truncate(a) as real)
    case EnemyShieldDamaged(a) => EnemyName + "shield was damaged for\n" + ShieldText(Truncate(a) as real)
    case PlayerShieldDamaged(a) => PlayerName + "shield was damaged for\n" + ShieldText(Truncate(a) as real)
    case EnemyHealed(a) => EnemyName + "was healed for\n" + HealthText(Truncate(a) as real)
    case PlayerHealed(a) => PlayerName + "was healed for\n" + HealthText(Truncate(a) as real)
    case EnemyShieldHealed(a) => EnemyName + "shield was restored for\n" + ShieldText(Truncate(a) as real)
    case PlayerShieldHealed(a) => PlayerName + "shield was restored for\n" + ShieldText(Truncate(a) as real)
    case EnemyStunned(t) => EnemyName + "was stunned for for\n" + ShieldText(t as real) + " turns"
  }

  /** append_turn_notification: every queued entry ends in ".". */
  function Note(s: string): (r: string)
    ensures |r| == |s| + 1 && r[..|s|] == s && r[|s|] == '.'
  {
    s + "."
  }

  /** The entry queued for one event: its text with the "." added. */
  function Entry(e: BattleEvent): string
  {
    Note(Describe(e))
  }

  /** f applied to each element of xs, in order. */
  function MapSeq<T, U>(f: T -> U, xs: seq<T>): (ys: seq<U>)
    ensures |ys| == |xs|
    ensures forall k :: 0 <= k < |xs| ==> ys[k] == f(xs[k])
  {
    if xs == [] then [] else MapSeq(f, xs[..|xs| - 1]) + [f(xs[|xs| - 1])]
  }

  lemma MapSeqAppend<T, U>(f: T -> U, a: seq<T>, b: seq<T>)
    ensures MapSeq(f, a + b) == MapSeq(f, a) + MapSeq(f, b)
  {
  }

  /** The entries queued for a run of events, in order. */
  function Notes(events: seq<BattleEvent>): (ns: seq<string>)
    ensures |ns| == |events|
    ensures forall k :: 0 <= k < |events| ==> ns[k] == Entry(events[k])
  {
    MapSeq(Entry, events)
  }

  /** The enemy-shake countdown after one event: set by damage to the enemy, kept otherwise. */
  function ShakeOn(shake: real, e: BattleEvent): real
  {
    match e
    case EnemyDamaged(a) => a * 3.0
    case EnemyShieldDamaged(a) => a * 2.0
    case _ => shake
  }

  /** The enemy-shake countdown after a run of events. */
  function ShakeAfter(shake: real, events: seq<BattleEvent>): real
  {
    if events == [] then shake else ShakeOn(ShakeAfter(shake, events[..|events| - 1]), events[|events| - 1])
  }

  predicate HitsEnemy(e: BattleEvent)
  {
    e.EnemyDamaged? || e.EnemyShieldDamaged?
  }

  /** A run of events none of which damages the enemy or its shield leaves the shake as it was. */
  lemma {:induction false} ShakeAfterNoHit(shake: real, events: seq<BattleEvent>)
    requires forall k :: 0 <= k < |events| ==> !HitsEnemy(events[k])
    ensures ShakeAfter(shake, events) == shake
  {
    if events != [] {
      var init := events[..|events| - 1];
      assert forall k :: 0 <= k < |init| ==> init[k] == events[k];
      ShakeAfterNoHit(shake, init);
    }
  }

  /**
   * The shake after a run of events is set by the last event that damaged the
   * enemy or its shield, whatever came before it.
   */
  lemma {:induction false} ShakeAfterLastHit(shake: real, events: seq<BattleEvent>, k: nat)
    requires k < |events| && HitsEnemy(events[k])
    requires forall m :: k < m < |events| ==> !HitsEnemy(events[m])
    ensures ShakeAfter(shake, events) == ShakeOn(shake, events[k])
  {
    var n := |events| - 1;
    var init := events[..n];
    if k < n {
      assert forall m :: k < m < |init| ==> init[m] == events[m];
      ShakeAfterLastHit(shake, init, k);
    }
  }

  /** The entries for two runs of events are those of the first, then those of the second. */
  lemma NotesAppend(a: seq<BattleEvent>, b: seq<BattleEvent>)
    ensures Notes(a + b) == Notes(a) + Notes(b)
  {
    MapSeqAppend(Entry, a, b);
  }

  /** One more event queues one more entry, at the end. */
  lemma NotesSnoc(events: seq<BattleEvent>, i: nat)
    requires i < |events|
    ensures Notes(events[..i + 1]) == Notes(events[..i]) + [Entry(events[i])]
  {
    assert events[..i + 1] == events[..i] + [events[i]];
    MapSeqAppend(Entry, events[..i], [events[i]]);
  }

  /** One more event updates the shake by that event alone. */
  lemma ShakeAfterSnoc(shake: real, events: seq<BattleEvent>, i: nat)
    requires i < |events|
    ensures ShakeAfter(shake, events[..i + 1]) == ShakeOn(ShakeAfter(shake, events[..i]), events[i])
  {
    assert events[..i + 1][..i] == events[..i];
  }

  lemma {:induction false} ShakeAfterAppend(shake: real, a: seq<BattleEvent>, b: seq<BattleEvent>)
    ensures ShakeAfter(shake, a + b) == ShakeAfter(ShakeAfter(shake, a), b)
    decreases |b|
  {
    if b != [] {
      var k := |b| - 1;
      assert (a + b)[..|a + b| - 1] == a + b[..k];
      ShakeAfterAppend(shake, a, b[..k]);
    } else {
      assert a + b == a;
    }
  }

  /** The flushed message: every queued entry followed by a newline, in queue order. */
  function Joined(ns: seq<string>): string
  {
    if ns == [] then "" else Joined(ns[..|ns| - 1]) + ns[|ns| - 1] + "\n"
  }

  lemma {:induction false} JoinedAppend(a: seq<string>, b: seq<string>)
    ensures Joined(a + b) == Joined(a) + Joined(b)
    decreases |b|
  {
    if b != [] {
      var k := |b| - 1;
      assert (a + b)[..|a + b| - 1] == a + b[..k];
      JoinedAppend(a, b[..k]);
    } else {
      assert a + b == a;
    }
  }

  /** Each entry appears in the flushed message, whole, after all earlier entries. */
  lemma JoinedAt(ns: seq<string>, i: nat)
    requires i < |ns|
    ensures Joined(ns) == Joined(ns[..i]) + ns[i] + "\n" + Joined(ns[i + 1..])
  {
    var front, rest := ns[..i + 1], ns[i + 1..];
    assert Joined(front) == Joined(ns[..i]) + ns[i] + "\n" by {
      assert front[..i] == ns[..i] && front[i] == ns[i];
    }
    assert Joined(ns) == Joined(front) + Joined(rest) by {
      assert ns == front + rest;
      JoinedAppend(front, rest);
    }
  }
}
