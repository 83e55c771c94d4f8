/** The texts that name a reminder outside the tables, the provider's idempotency
    key and the queue's job id, each name one (booking, offset) pair only. */
module EmailKeys {
  import opened Tables

  function Digit(n: nat): char
    requires n < 10
  {
    ('0' as int + n) as char
  }

  function Digits(n: nat): string {
    if n < 10 then [Digit(n)] else Digits(n / 10) + [Digit(n % 10)]
  }

  /** A number as a template literal prints it. */
  function Decimal(n: int): string {
    if n < 0 then "-" + Digits(-n) else Digits(n)
  }

  /** The provider's idempotency key, `reminder/<booking>/<offset>`. */
  function KeyText(id: ReminderId): string {
    "reminder/" + id.booking.text + "/" + Decimal(id.offset)
  }

  /** The queue's job id, `reminder:<booking>:<offset>`. */
  function JobText(id: ReminderId): string {
    "reminder:" + id.booking.text + ":" + Decimal(id.offset)
  }

  /** The two texts of the two offsets in use. */
  lemma TextsInUse(b: Uuid)
    ensures KeyText(ReminderId(b, 60)) == "reminder/" + b.text + "/60"
    ensures KeyText(ReminderId(b, 1440)) == "reminder/" + b.text + "/1440"
    ensures JobText(ReminderId(b, 60)) == "reminder:" + b.text + ":60"
    ensures JobText(ReminderId(b, 1440)) == "reminder:" + b.text + ":1440"
  {
    assert Digits(6) == "6" && Digits(60) == "60";
    assert Digits(1) == "1" && Digits(14) == "14" && Digits(144) == "144" && Digits(1440) == "1440";
  }

  predicate Avoids(s: string, c: char) {
    forall i | 0 <= i < |s| :: s[i] != c
  }

  lemma {:induction false} DigitsPlain(n: nat)
    ensures |Digits(n)| >= 1 && Avoids(Digits(n), '/') && Avoids(Digits(n), ':') && Avoids(Digits(n), '-')
  {
    if n >= 10 {
      DigitsPlain(n / 10);
    }
  }

  lemma {:induction false} DigitsInjective(n: nat, k: nat)
    requires Digits(n) == Digits(k)
    ensures n == k
  {
    DigitsPlain(n / 10);
    DigitsPlain(k / 10);
    var x, y := Digits(n), Digits(k);
    assert n % 10 == k % 10 by {
      assert x[|x| - 1] == Digit(n % 10) && y[|y| - 1] == Digit(k % 10);
    }
    if n >= 10 && k >= 10 {
      assert x[..|x| - 1] == Digits(n / 10) && y[..|y| - 1] == Digits(k / 10);
      DigitsInjective(n / 10, k / 10);
    }
  }

  lemma DecimalInjective(n: int, k: int)
    requires Decimal(n) == Decimal(k)
    ensures n == k
  {
    var p, q := if n < 0 then -n else n, if k < 0 then -k else k;
    DigitsPlain(p);
    DigitsPlain(q);
    assert (n < 0) == (Decimal(n)[0] == '-') && (k < 0) == (Decimal(k)[0] == '-');
    if n < 0 {
      assert Decimal(n)[1..] == Digits(p) && Decimal(k)[1..] == Digits(q);
    }
    DigitsInjective(p, q);
  }

  lemma DecimalPlain(n: int)
    ensures Avoids(Decimal(n), '/') && Avoids(Decimal(n), ':')
  {
    DigitsPlain(if n < 0 then -n else n);
  }

  lemma NoLaterSeparator(a: string, d: string, a': string, d': string, c: char)
    requires a + [c] + d == a' + [c] + d' && Avoids(d, c)
    ensures |a'| <= |a|
  {
    var s := a + [c] + d;
    assert s[|a'|] == c;
    assert forall k | |a| < k < |s| :: s[k] == d[k - |a| - 1];
  }

  /** The last separator splits the text in one way only. */
  lemma LastSeparator(a: string, d: string, a': string, d': string, c: char)
    requires a + [c] + d == a' + [c] + d' && Avoids(d, c) && Avoids(d', c)
    ensures a == a' && d == d'
  {
    NoLaterSeparator(a, d, a', d', c);
    NoLaterSeparator(a', d', a, d, c);
    var s := a + [c] + d;
    assert s[..|a|] == a && s[..|a'|] == a';
    assert s[|a| + 1..] == d && s[|a'| + 1..] == d';
  }

  /** A prefix, a booking and a number joined by a separator determine booking and number. */
  lemma JoinedInjective(prefix: string, id: ReminderId, id': ReminderId, c: char)
    requires prefix + id.booking.text + [c] + Decimal(id.offset) ==
             prefix + id'.booking.text + [c] + Decimal(id'.offset)
    requires Avoids(Decimal(id.offset), c) && Avoids(Decimal(id'.offset), c)
    ensures id == id'
  {
    LastSeparator(prefix + id.booking.text, Decimal(id.offset), prefix + id'.booking.text, Decimal(id'.offset), c);
    assert (prefix + id.booking.text)[|prefix|..] == id.booking.text;
    assert (prefix + id'.booking.text)[|prefix|..] == id'.booking.text;
    DecimalInjective(id.offset, id'.offset);
  }

  /** Different reminders never share an idempotency key, whatever characters a booking id holds. */
  lemma KeyTextInjective(id: ReminderId, id': ReminderId)
    requires KeyText(id) == KeyText(id')
    ensures id == id'
  {
    DecimalPlain(id.offset);
    DecimalPlain(id'.offset);
    JoinedInjective("reminder/", id, id', '/');
  }

  /** Nor do they share a job id. */
  lemma JobTextInjective(id: ReminderId, id': ReminderId)
    requires JobText(id) == JobText(id')
    ensures id == id'
  {
    DecimalPlain(id.offset);
    DecimalPlain(id'.offset);
    JoinedInjective("reminder:", id, id', ':');
  }
}
