/** The messages sent over data channels (`zakuro/src/data_channel.rs`). */
module DataChannel {
  import opened Bytes
  import opened Outcomes
  import opened Xorshift

  const SIZE_MIN: nat := 48
  const SIZE_MAX: nat := 256_000

  /** The sizes are those of whole messages. */
  datatype Channel = Channel(name: string, sizeMin: nat, sizeMax: nat)

  predicate InRange(size: nat) {
    SIZE_MIN <= size <= SIZE_MAX
  }

  /** The sizes a channel is configured with, or an error: those given, the smallest where none is, and a maximum below the
      minimum raised to it. */
  function Configure(name: string, sizeMin: Option<nat>, sizeMax: Option<nat>): (c: Option<Channel>)
    ensures c.Some? ==> SIZE_MIN <= c.value.sizeMin <= c.value.sizeMax <= SIZE_MAX
    ensures c.Some? ==>
              && c.value.name == name
              && (sizeMin.Some? ==> c.value.sizeMin == sizeMin.value) && (sizeMin.None? ==> c.value.sizeMin == SIZE_MIN)
              && (if sizeMax.Some? && sizeMax.value >= c.value.sizeMin then c.value.sizeMax == sizeMax.value
                  else c.value.sizeMax == c.value.sizeMin)
    ensures c.None? <==> (sizeMin.Some? && !InRange(sizeMin.value)) || (sizeMax.Some? && !InRange(sizeMax.value))
  {
    var low := if sizeMin.Some? then sizeMin.value else SIZE_MIN;
    var high := if sizeMax.Some? then sizeMax.value else SIZE_MIN;
    if !InRange(low) || !InRange(high) then None
    else Some(Channel(name, if low > SIZE_MIN then low else SIZE_MIN, if high > low then high else low))
  }

  predicate Configured(c: Channel) {
    SIZE_MIN <= c.sizeMin <= c.sizeMax <= SIZE_MAX
  }

  /** `payload_size_from` */
  function PayloadSizeFrom(sizeMin: nat, sizeMax: nat, random: nat): (n: nat)
    requires SIZE_MIN <= sizeMin <= sizeMax
    ensures sizeMin <= SIZE_MIN + n <= sizeMax
  {
    var low, high := sizeMin - SIZE_MIN, sizeMax - SIZE_MIN;
    low + if high - low > 0 then random % (high - low + 1) else 0
  }

  // ----- bytes -----

  /** Big-endian. */
  function BeBytes(n: nat, k: nat): (b: seq<byte>)
    ensures |b| == k
  {
    if k == 0 then [] else BeBytes(n / 256, k - 1) + [n % 256]
  }

  function BeValue(b: seq<byte>): nat {
    if b == [] then 0 else 256 * BeValue(b[..|b| - 1]) + b[|b| - 1]
  }

  function Pow256(k: nat): nat {
    if k == 0 then 1 else 256 * Pow256(k - 1)
  }

  lemma {:induction false} ValueOfBytes(n: nat, k: nat)
    requires n < Pow256(k)
    ensures BeValue(BeBytes(n, k)) == n
  {
    if k > 0 {
      ValueOfBytes(n / 256, k - 1);
      assert BeBytes(n, k)[..k - 1] == BeBytes(n / 256, k - 1);
    }
  }

  /** The four bytes of a word, lowest first. */
  function WordBytes(w: Word): (b: seq<byte>)
    ensures |b| == 4
  {
    [ByteOf(w[..8]), ByteOf(w[8..16]), ByteOf(w[16..24]), ByteOf(w[24..])]
  }

  function ByteOf(bits: seq<bool>): byte
    requires |bits| == 8
  {
    ValueBound(bits);
    Value(bits)
  }

  lemma {:induction false} ValueBound(bits: seq<bool>)
    ensures Value(bits) < Pow2(|bits|)
    ensures |bits| == 8 ==> Value(bits) < 256
  {
    if bits != [] {
      ValueBound(bits[1..]);
    }
    Pow2Doubles(4, 4);
    Pow2Doubles(2, 2);
    assert Pow2(1) == 2 && Pow2(2) == 4;
  }

  // ----- messages -----

  const SIGNATURE: seq<byte> := [90, 65, 75, 85, 82, 79]

  function Min(a: nat, b: nat): nat {
    if a < b then a else b
  }

  /** `n` random bytes, four from each word. */
  function Payload(x: Word, n: nat): (b: seq<byte>)
    ensures |b| == n
    decreases n
  {
    if n == 0 then [] else WordBytes(Next(x))[..Min(n, 4)] + Payload(Next(x), n - Min(n, 4))
  }

  /** The generator after `n` random bytes. */
  function StateAfter(x: Word, n: nat): Word
    decreases n
  {
    if n == 0 then x else StateAfter(Next(x), n - Min(n, 4))
  }

  /** The connection's identifier in 26 bytes, cut off or filled up with zeros. */
  function IdField(id: seq<byte>): (b: seq<byte>)
    ensures |b| == 26
  {
    id[..Min(|id|, 26)] + seq(26 - Min(|id|, 26), _ => 0)
  }

  function Header(time: nat, counter: nat, id: seq<byte>): (b: seq<byte>)
    ensures |b| == SIZE_MIN
  {
    SIGNATURE + BeBytes(time, 8) + BeBytes(counter, 8) + IdField(id)
  }

  /** Writes a piece and leaves the rest. */
  method Fill(buf: array<byte>, at: nat, piece: seq<byte>)
    requires at + |piece| <= buf.Length
    modifies buf
    ensures buf[..at + |piece|] == old(buf[..at]) + piece
    ensures forall j :: at + |piece| <= j < buf.Length ==> buf[j] == old(buf[j])
  {
    forall j | 0 <= j < |piece| {
      buf[at + j] := piece[j];
    }
    assert buf[..at] == old(buf[..at]) && buf[at..at + |piece|] == piece;
  }

  method FillHeader(buf: array<byte>, time: nat, counter: nat, id: seq<byte>)
    requires buf.Length >= SIZE_MIN && forall j :: 0 <= j < buf.Length ==> buf[j] == 0
    modifies buf
    ensures buf[..SIZE_MIN] == Header(time, counter, id)
  {
    Fill(buf, 0, SIGNATURE);
    Fill(buf, 6, BeBytes(time, 8));
    Fill(buf, 14, BeBytes(counter, 8));
    var length := if |id| < 26 then |id| else 26;
    Fill(buf, 22, id[..length]);
    assert buf[22 + length..SIZE_MIN] == seq(26 - length, _ => 0);
    assert buf[..SIZE_MIN] == buf[..22 + length] + buf[22 + length..SIZE_MIN];
  }

  lemma PayloadWord(x: Word, n: nat)
    requires n > 0
    ensures var k := if n < 4 then n else 4;
            && Payload(x, n) == WordBytes(Next(x))[..k] + Payload(Next(x), n - k)
            && StateAfter(x, n) == StateAfter(Next(x), n - k)
  {
    hide Next, WordBytes;
  }

  lemma PayloadEnd(x: Word)
    ensures Payload(x, 0) == [] && StateAfter(x, 0) == x
  {
  }

  method BuildMessage(time: nat, counter: nat, id: seq<byte>, n: nat, x: Word) returns (message: seq<byte>, next: Word)
    ensures message == Header(time, counter, id) + Payload(x, n) && next == StateAfter(x, n)
  {
    hide Payload, StateAfter, Next, WordBytes, Header;
    var buf := new byte[SIZE_MIN + n](_ => 0);
    FillHeader(buf, time, counter, id);
    next := FillPayload(buf, n, x);
    assert buf[..] == buf[..SIZE_MIN] + buf[SIZE_MIN..];
    message := buf[..];
  }

  lemma PieceMoves(done: seq<byte>, x: Word, n: nat)
    requires n > 0
    ensures var k := if n < 4 then n else 4; var piece := WordBytes(Next(x))[..k];
            && done + Payload(x, n) == (done + piece) + Payload(Next(x), n - k)
            && StateAfter(x, n) == StateAfter(Next(x), n - k)
  {
    hide Payload, StateAfter, Next, WordBytes;
    PayloadWord(x, n);
  }

  method FillPayload(buf: array<byte>, n: nat, x: Word) returns (next: Word)
    requires buf.Length == SIZE_MIN + n
    modifies buf
    ensures buf[..SIZE_MIN] == old(buf[..SIZE_MIN]) && buf[SIZE_MIN..] == Payload(x, n) && next == StateAfter(x, n)
  {
    hide *;
    next := x;
    var at := SIZE_MIN;
    ghost var done: seq<byte> := [];
    assert buf[..at] == old(buf[..SIZE_MIN]) + done && done + Payload(x, n) == Payload(x, n);
    while at < buf.Length
      invariant SIZE_MIN <= at <= buf.Length
      invariant buf[..at] == old(buf[..SIZE_MIN]) + done && done + Payload(next, buf.Length - at) == Payload(x, n)
      invariant StateAfter(next, buf.Length - at) == StateAfter(x, n)
    {
      var left := buf.Length - at;
      var length := if left < 4 then left else 4;
      PieceMoves(done, next, left);
      next := Next(next);
      var piece := WordBytes(next)[..length];
      Fill(buf, at, piece);
      done := done + piece;
      at := at + length;
    }
    PayloadEnd(next);
    assert done == Payload(x, n) && buf[..at] == buf[..];
  }

  // ----- what a client sends -----

  datatype Sent = Sent(name: string, bytes: seq<byte>)

  datatype Sender = Sender(counters: map<string, nat>, x: Word, sent: seq<Sent>)

  /** A channel's turn: the index of the channel, and the time. */
  type Turn = (nat, nat)

  /** The size of the next payload, and the generator after choosing it; a fixed size takes no random word. */
  function NextSize(c: Channel, x: Word): (nat, Word)
    requires Configured(c)
  {
    if c.sizeMax > c.sizeMin then (PayloadSizeFrom(c.sizeMin, c.sizeMax, Value(Next(x))), Next(x))
    else (c.sizeMin - SIZE_MIN, x)
  }

  function CounterOf(counters: map<string, nat>, name: string): nat {
    if name in counters then counters[name] else 0
  }

  function Send(s: Sender, c: Channel, time: nat): Sender
    requires Configured(c)
  {
    var counter, (n, x) := CounterOf(s.counters, c.name), NextSize(c, s.x);
    Sender(s.counters[c.name := counter + 1], StateAfter(x, n), s.sent + [Sent(c.name, Header(time, counter, []) + Payload(x, n))])
  }

  predicate Ready(channels: seq<Channel>, turns: seq<Turn>) {
    && (forall i :: 0 <= i < |channels| ==> Configured(channels[i]))
    && forall i :: 0 <= i < |turns| ==> turns[i].0 < |channels|
  }

  function SendAll(channels: seq<Channel>, x: Word, turns: seq<Turn>): Sender
    requires Ready(channels, turns)
  {
    if turns == [] then Sender(map[], x, [])
    else
      var (i, time) := turns[|turns| - 1];
      Send(SendAll(channels, x, turns[..|turns| - 1]), channels[i], time)
  }

  class Messenger {
    const channels: seq<Channel>
    var counters: map<string, nat>
    var x: Word
    var sent: seq<Sent>

    ghost function Now(): Sender
      reads this
    {
      Sender(counters, x, sent)
    }

    constructor (channels: seq<Channel>, instance: nat, client: nat)
      ensures this.channels == channels && Now() == Sender(map[], Seed(instance, client), [])
    {
      this.channels, counters, x, sent := channels, map[], Seed(instance, client), [];
    }

    /** The loop of `run_messaging`, in whatever order the channels come due, until it is cancelled. */
    method Run(turns: seq<Turn>)
      requires Ready(channels, turns) && Now() == Sender(map[], x, [])
      modifies this
      ensures Now() == SendAll(channels, old(x), turns)
    {
      hide Next, Header, Payload, StateAfter, PayloadSizeFrom, Value;
      for k := 0 to |turns|
        invariant Now() == SendAll(channels, old(x), turns[..k])
      {
        assert turns[..k + 1][..k] == turns[..k];
        var (i, time) := turns[k];
        var c := channels[i];
        var counter := CounterOf(counters, c.name);
        var n := c.sizeMin - SIZE_MIN;
        if c.sizeMax > c.sizeMin {
          x := Next(x);
          n := PayloadSizeFrom(c.sizeMin, c.sizeMax, Value(x));
        }
        var message;
        message, x := BuildMessage(time, counter, [], n, x);
        sent := sent + [Sent(c.name, message)];
        counters := counters[c.name := counter + 1];
      }
      assert turns[..|turns|] == turns;
    }
  }

  // ----- what every run keeps -----

  function Earlier(sent: seq<Sent>, name: string): nat {
    if sent == [] then 0 else Earlier(sent[..|sent| - 1], name) + (if sent[|sent| - 1].name == name then 1 else 0)
  }

  /** The bytes of a message are laid out as promised: the signature, the time, the number of earlier messages with the
      same label, no identifier, and a payload that keeps the whole within the channel's sizes. */
  ghost predicate LaidOut(m: Sent, c: Channel, time: nat, counter: nat) {
    && m.name == c.name && c.sizeMin <= |m.bytes| <= c.sizeMax && |m.bytes| >= SIZE_MIN
    && m.bytes[..6] == SIGNATURE && m.bytes[6..14] == BeBytes(time, 8) && m.bytes[14..22] == BeBytes(counter, 8)
    && m.bytes[22..48] == seq(26, _ => 0)
  }

  lemma SendLaidOut(s: Sender, c: Channel, time: nat)
    requires Configured(c)
    ensures var r := Send(s, c, time);
            |r.sent| == |s.sent| + 1 && LaidOut(r.sent[|s.sent|], c, time, CounterOf(s.counters, c.name))
  {
    var counter := CounterOf(s.counters, c.name);
    var m := Send(s, c, time).sent[|s.sent|];
    var h := Header(time, counter, []);
    assert m.bytes[..48] == h;
    HeaderFields(time, counter);
    assert m.bytes[..6] == h[..6] && m.bytes[6..14] == h[6..14] && m.bytes[14..22] == h[14..22] && m.bytes[22..48] == h[22..48];
  }

  lemma HeaderFields(time: nat, counter: nat)
    ensures var h := Header(time, counter, []);
            h[..6] == SIGNATURE && h[6..14] == BeBytes(time, 8) && h[14..22] == BeBytes(counter, 8) && h[22..48] == seq(26, _ => 0)
  {
  }

  lemma {:induction false} StateNotZero(x: Word, n: nat)
    requires x != Zero()
    ensures StateAfter(x, n) != Zero()
    decreases n
  {
    hide Next;
    if n > 0 {
      NextPermutes(x);
      StateNotZero(Next(x), n - Min(n, 4));
    }
  }

  /** Each message is the one its turn asks for, and its counter is the number of earlier messages with its label. */
  ghost predicate AllLaidOut(channels: seq<Channel>, turns: seq<Turn>, sent: seq<Sent>)
    requires Ready(channels, turns)
  {
    && |sent| == |turns|
    && forall k :: 0 <= k < |turns| ==>
         LaidOut(sent[k], channels[turns[k].0], turns[k].1, Earlier(sent[..k], channels[turns[k].0].name))
  }

  lemma OneMoreLaidOut(channels: seq<Channel>, turns: seq<Turn>, before: seq<Sent>, m: Sent)
    requires turns != [] && Ready(channels, turns) && Ready(channels, turns[..|turns| - 1])
    requires AllLaidOut(channels, turns[..|turns| - 1], before)
    requires var (i, time) := turns[|turns| - 1]; LaidOut(m, channels[i], time, Earlier(before, channels[i].name))
    ensures AllLaidOut(channels, turns, before + [m])
  {
    hide LaidOut, Earlier;
    var sent, n := before + [m], |turns| - 1;
    forall k | 0 <= k < |turns|
      ensures LaidOut(sent[k], channels[turns[k].0], turns[k].1, Earlier(sent[..k], channels[turns[k].0].name))
    {
      assert sent[..k] == before[..k];
      assert k < n ==> sent[k] == before[k] && turns[k] == turns[..n][k];
      assert before[..n] == before;
    }
  }

  /** In every run each message is laid out as its turn asks, the counters of each label go 0, 1, 2, ..., and the
      generator never reaches zero. */
  lemma {:induction false} MessagesRight(channels: seq<Channel>, x: Word, turns: seq<Turn>)
    requires Ready(channels, turns) && x != Zero()
    ensures var s := SendAll(channels, x, turns);
            && AllLaidOut(channels, turns, s.sent) && s.x != Zero()
            && (forall name :: CounterOf(s.counters, name) == Earlier(s.sent, name))
  {
    if turns != [] {
      var init := turns[..|turns| - 1];
      var (i, time) := turns[|turns| - 1];
      MessagesRight(channels, x, init);
      var before := SendAll(channels, x, init);
      SendLaidOut(before, channels[i], time);
      SendKeeps(before, channels[i], time);
      hide Send, LaidOut, AllLaidOut, Earlier, CounterOf;
      OneMoreLaidOut(channels, turns, before.sent, Send(before, channels[i], time).sent[|before.sent|]);
    }
  }

  /** One more message leaves the earlier ones, and the counters go on counting. */
  lemma SendKeeps(s: Sender, c: Channel, time: nat)
    requires Configured(c) && s.x != Zero() && forall name :: CounterOf(s.counters, name) == Earlier(s.sent, name)
    ensures var r := Send(s, c, time);
            && |r.sent| == |s.sent| + 1 && r.sent == s.sent + [r.sent[|s.sent|]] && r.x != Zero()
            && (forall name :: CounterOf(r.counters, name) == Earlier(r.sent, name))
  {
    NextPermutes(s.x);
    StateNotZero(NextSize(c, s.x).1, NextSize(c, s.x).0);
    hide Next, Payload, StateAfter, Header;
    assert Send(s, c, time).sent[..|s.sent|] == s.sent;
  }

  // ----- what is drawn at random -----

  /** The generator `k` words on. */
  function WordAt(x: Word, k: nat): Word {
    if k == 0 then x else Next(WordAt(x, k - 1))
  }

  /** Four bytes from each word of `x` behind the first `w`. */
  ghost predicate FromWords(bytes: seq<byte>, x: Word, w: nat) {
    forall j :: 0 <= j < |bytes| ==> bytes[j] == WordBytes(WordAt(x, w + j / 4 + 1))[j % 4]
  }

  lemma WordAtNext(x: Word, w: nat)
    ensures WordAt(x, w + 1) == Next(WordAt(x, w))
  {
    hide Next;
  }

  lemma FromWordsMore(piece: seq<byte>, rest: seq<byte>, x: Word, w: nat)
    requires |piece| <= 4 && (rest != [] ==> |piece| == 4) && piece == WordBytes(WordAt(x, w + 1))[..|piece|]
    requires FromWords(rest, x, w + 1)
    ensures FromWords(piece + rest, x, w)
  {
    hide WordBytes, WordAt;
    forall j | 0 <= j < |piece + rest| ensures (piece + rest)[j] == WordBytes(WordAt(x, w + j / 4 + 1))[j % 4] {
      if j >= |piece| {
        assert (piece + rest)[j] == rest[j - 4];
        assert (j - 4) / 4 == j / 4 - 1 && (j - 4) % 4 == j % 4;
      } else {
        assert j / 4 == 0 && j % 4 == j;
      }
    }
  }

  /** The payload takes four bytes from each word, and the generator goes on behind the last word used. */
  lemma {:induction false} PayloadFromWords(x: Word, w: nat, n: nat)
    ensures StateAfter(WordAt(x, w), n) == WordAt(x, w + (n + 3) / 4)
    ensures FromWords(Payload(WordAt(x, w), n), x, w)
    decreases n
  {
    hide *;
    if n == 0 {
      NoPayload(x, w);
    } else {
      var k := if n < 4 then n else 4;
      var rest := n - k;
      PayloadWord(WordAt(x, w), n);
      WordAtNext(x, w);
      PayloadFromWords(x, w + 1, rest);
      assert (rest + 3) / 4 + 1 == (n + 3) / 4;
      FromWordsMore(WordBytes(WordAt(x, w + 1))[..k], Payload(WordAt(x, w + 1), rest), x, w);
    }
  }

  lemma NoPayload(x: Word, w: nat)
    ensures StateAfter(WordAt(x, w), 0) == WordAt(x, w) && FromWords(Payload(WordAt(x, w), 0), x, w)
  {
    hide WordAt;
  }

  /** Message `m` of channel `c` is drawn from the words of `x` behind the first `w`: if the sizes leave a choice, the first
      decides its size; the payload is made of the next ones. */
  ghost predicate Drawn(m: Sent, c: Channel, x: Word, w: nat) {
    var choice := c.sizeMin < c.sizeMax;
    && |m.bytes| == c.sizeMin + (if choice then Value(WordAt(x, w + 1)) % (c.sizeMax - c.sizeMin + 1) else 0)
    && |m.bytes| >= 48
    && FromWords(m.bytes[48..], x, w + if choice then 1 else 0)
  }

  /** How many words a message takes. */
  function WordsOf(m: Sent, c: Channel): nat {
    (if c.sizeMin < c.sizeMax then 1 else 0) + if |m.bytes| >= 48 then (|m.bytes| - 48 + 3) / 4 else 0
  }

  function WordsOfAll(channels: seq<Channel>, turns: seq<Turn>, sent: seq<Sent>): nat
    requires Ready(channels, turns) && |sent| == |turns|
  {
    if turns == [] then 0
    else
      var n := |turns| - 1;
      WordsOfAll(channels, turns[..n], sent[..n]) + WordsOf(sent[n], channels[turns[n].0])
  }

  lemma SendIs(s: Sender, c: Channel, time: nat)
    requires Configured(c)
    ensures var (n, first), r := NextSize(c, s.x), Send(s, c, time);
            && |r.sent| == |s.sent| + 1 && r.sent[..|s.sent|] == s.sent && r.x == StateAfter(first, n)
            && |r.sent[|s.sent|].bytes| == 48 + n && r.sent[|s.sent|].bytes[48..] == Payload(first, n)
  {
    hide Payload, StateAfter, NextSize, Header;
    var h := Header(time, CounterOf(s.counters, c.name), []);
    assert (h + Payload(NextSize(c, s.x).1, NextSize(c, s.x).0))[48..] == Payload(NextSize(c, s.x).1, NextSize(c, s.x).0);
  }

  lemma SizeDrawn(c: Channel, x: Word, w: nat)
    requires Configured(c)
    ensures var (n, first), choice := NextSize(c, WordAt(x, w)), c.sizeMin < c.sizeMax;
            && 48 + n == c.sizeMin + (if choice then Value(WordAt(x, w + 1)) % (c.sizeMax - c.sizeMin + 1) else 0)
            && first == WordAt(x, w + if choice then 1 else 0)
  {
    WordAtNext(x, w);
    hide Next, Value, WordAt;
  }

  lemma SendDrawn(s: Sender, c: Channel, time: nat, x: Word, w: nat)
    requires Configured(c) && s.x == WordAt(x, w)
    ensures var r := Send(s, c, time);
            && |r.sent| == |s.sent| + 1 && r.sent[..|s.sent|] == s.sent
            && Drawn(r.sent[|s.sent|], c, x, w) && r.x == WordAt(x, w + WordsOf(r.sent[|s.sent|], c))
  {
    hide Send, NextSize, Payload, StateAfter, FromWords, WordAt, Value;
    SendIs(s, c, time);
    SizeDrawn(c, x, w);
    PayloadFromWords(x, w + if c.sizeMin < c.sizeMax then 1 else 0, NextSize(c, s.x).0);
  }

  lemma WordsMore(channels: seq<Channel>, turns: seq<Turn>, sent: seq<Sent>)
    requires Ready(channels, turns) && |sent| == |turns| && turns != []
    ensures var n := |turns| - 1;
            WordsOfAll(channels, turns, sent)
            == WordsOfAll(channels, turns[..n], sent[..n]) + WordsOf(sent[n], channels[turns[n].0])
  {
  }

  /** Message by message, each from the words behind those before it. */
  ghost predicate AllDrawn(channels: seq<Channel>, x: Word, turns: seq<Turn>, sent: seq<Sent>)
    requires Ready(channels, turns)
  {
    && |sent| == |turns|
    && forall k :: 0 <= k < |turns| ==>
         Drawn(sent[k], channels[turns[k].0], x, WordsOfAll(channels, turns[..k], sent[..k]))
  }

  lemma OneMoreDrawn(channels: seq<Channel>, x: Word, turns: seq<Turn>, sent: seq<Sent>)
    requires turns != [] && Ready(channels, turns) && Ready(channels, turns[..|turns| - 1]) && |sent| == |turns|
    requires var n := |turns| - 1;
             && AllDrawn(channels, x, turns[..n], sent[..n])
             && Drawn(sent[n], channels[turns[n].0], x, WordsOfAll(channels, turns[..n], sent[..n]))
    ensures AllDrawn(channels, x, turns, sent)
  {
    hide Drawn, WordsOfAll;
    var n := |turns| - 1;
    forall k | 0 <= k < |turns|
      ensures Drawn(sent[k], channels[turns[k].0], x, WordsOfAll(channels, turns[..k], sent[..k]))
    {
      if k < n {
        assert turns[..k] == turns[..n][..k] && sent[..k] == sent[..n][..k];
        assert turns[k] == turns[..n][k] && sent[k] == sent[..n][k];
      }
    }
  }

  lemma SendAllMore(channels: seq<Channel>, x: Word, turns: seq<Turn>)
    requires Ready(channels, turns) && turns != []
    ensures var n := |turns| - 1;
            && Ready(channels, turns[..n]) && turns[n].0 < |channels| && Configured(channels[turns[n].0])
            && SendAll(channels, x, turns) == Send(SendAll(channels, x, turns[..n]), channels[turns[n].0], turns[n].1)
  {
    hide Send, Configured;
  }

  lemma NothingDrawn(channels: seq<Channel>, x: Word)
    requires Ready(channels, [])
    ensures AllDrawn(channels, x, [], SendAll(channels, x, []).sent)
    ensures SendAll(channels, x, []).x == WordAt(x, WordsOfAll(channels, [], SendAll(channels, x, []).sent))
  {
  }

  /** In every run the messages are drawn one after the other from the words of the generator. */
  lemma {:induction false} MessagesDrawn(channels: seq<Channel>, x: Word, turns: seq<Turn>)
    requires Ready(channels, turns)
    ensures var s := SendAll(channels, x, turns);
            AllDrawn(channels, x, turns, s.sent) && s.x == WordAt(x, WordsOfAll(channels, turns, s.sent))
  {
    hide *;
    if turns == [] {
      NothingDrawn(channels, x);
    } else {
      var n := |turns| - 1;
      SendAllMore(channels, x, turns);
      MessagesDrawn(channels, x, turns[..n]);
      var before, c := SendAll(channels, x, turns[..n]), channels[turns[n].0];
      AllCounted(channels, x, turns[..n], before.sent);
      var w := WordsOfAll(channels, turns[..n], before.sent);
      SendDrawn(before, c, turns[n].1, x, w);
      var s := Send(before, c, turns[n].1);
      WordsMore(channels, turns, s.sent);
      OneMoreDrawn(channels, x, turns, s.sent);
    }
  }

  lemma AllCounted(channels: seq<Channel>, x: Word, turns: seq<Turn>, sent: seq<Sent>)
    requires Ready(channels, turns) && AllDrawn(channels, x, turns, sent)
    ensures |sent| == |turns|
  {
  }

  /** Read back from a message, the counter is itself, as long as it fits. */
  lemma CounterReadBack(m: Sent, c: Channel, time: nat, counter: nat)
    requires LaidOut(m, c, time, counter) && counter < Pow256(8)
    ensures BeValue(m.bytes[14..22]) == counter
  {
    ValueOfBytes(counter, 8);
  }
}
