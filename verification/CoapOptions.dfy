/** The option list of a PDU: delta-encoded options one after the other, ended by a marker or by the
    end of the datagram. */
module CoapOptions {
  import opened CoapPdu
  import opened Options

  const END_MARKER: byte := 255

  datatype Opt = Opt(number: nat, data: seq<byte>)

  /** The writer copes with deltas and lengths below this. */
  const LIMIT: nat := 268

  function Nibble(n: nat): nat {
    if n > 12 then 13 else n
  }

  function Extension(n: nat): seq<byte>
    requires n < LIMIT
  {
    if n > 12 then [n - 13] else []
  }

  function EncodeOption(delta: nat, data: seq<byte>): (r: seq<byte>)
    requires delta < LIMIT && |data| < LIMIT
    ensures r != [] && r[0] != END_MARKER && |r| <= 3 + |data|
  {
    [Nibble(delta) * 16 + Nibble(|data|)] + Extension(delta) + Extension(|data|) + data
  }

  /** Options that can be written: in ascending order, within the writer's limits. */
  predicate Writable(opts: seq<Opt>, last: nat)
    decreases |opts|
  {
    opts == [] ||
    (last <= opts[0].number < last + LIMIT && |opts[0].data| < LIMIT && Writable(opts[1..], opts[0].number))
  }

  function EncodeOptions(opts: seq<Opt>, last: nat): seq<byte>
    requires Writable(opts, last)
    decreases |opts|
  {
    if opts == [] then []
    else EncodeOption(opts[0].number - last, opts[0].data) + EncodeOptions(opts[1..], opts[0].number)
  }

  /** One step over an encoded option: the option and where the next one begins. */
  datatype Walk = Walked(opt: Opt, next: nat) | Malformed

  /** How many bytes extend a nibble, and what the nibble then stands for. */
  function ExtensionSize(nibble: nat): nat {
    if nibble > 12 then nibble - 12 else 0
  }

  function Extended(nibble: nat, b: seq<byte>, at: nat): nat
    requires at + ExtensionSize(nibble) <= |b|
  {
    if nibble == 13 then b[at] + 13
    else if nibble == 14 then b[at] * 256 + b[at + 1] + 269
    else nibble
  }

  function WalkOption(b: seq<byte>, last: nat): (w: Walk)
    ensures w.Walked? ==> 0 < w.next <= |b| && |w.opt.data| < w.next
  {
    if b == [] then Malformed
    else
      var d, l := b[0] / 16, b[0] % 16;
      if d == 15 || l == 15 then Malformed
      else if |b| - 1 < ExtensionSize(d) + ExtensionSize(l) then Malformed
      else
        var delta, length := Extended(d, b, 1), Extended(l, b, 1 + ExtensionSize(d));
        var start := 1 + ExtensionSize(d) + ExtensionSize(l);
        if |b| - start < length then Malformed
        else Walked(Opt(last + delta, b[start..start + length]), start + length)
  }

  /** Walking over a written option returns it and stops right behind it. */
  lemma {:induction false} OptionRoundTrip(delta: nat, data: seq<byte>, last: nat, rest: seq<byte>)
    requires delta < LIMIT && |data| < LIMIT
    ensures WalkOption(EncodeOption(delta, data) + rest, last) ==
              Walked(Opt(last + delta, data), |EncodeOption(delta, data)|)
    ensures (EncodeOption(delta, data) + rest)[|EncodeOption(delta, data)|..] == rest
  {
    var b := EncodeOption(delta, data) + rest;
    assert b[0] / 16 == Nibble(delta) && b[0] % 16 == Nibble(|data|);
    var start := 1 + ExtensionSize(Nibble(delta)) + ExtensionSize(Nibble(|data|));
    assert b == ([b[0]] + Extension(delta) + Extension(|data|)) + data + rest;
    assert b[start..start + |data|] == data;
  }

  // The standard's own form of an option, section 3.1 of RFC 7252: more than the writer copes with.

  const STANDARD_LIMIT: nat := 269 + 0x1_0000

  function StandardNibble(n: nat): nat
    requires n < STANDARD_LIMIT
  {
    if n < 13 then n else if n < 269 then 13 else 14
  }

  function StandardExtension(n: nat): seq<byte>
    requires n < STANDARD_LIMIT
  {
    if n < 13 then [] else if n < 269 then [n - 13] else [(n - 269) / 256, (n - 269) % 256]
  }

  function StandardHead(delta: nat, length: nat): seq<byte>
    requires delta < STANDARD_LIMIT && length < STANDARD_LIMIT
  {
    [StandardNibble(delta) * 16 + StandardNibble(length)] + StandardExtension(delta) + StandardExtension(length)
  }

  lemma {:induction false} WritesStandard(delta: nat, data: seq<byte>)
    requires delta < LIMIT && |data| < LIMIT
    ensures EncodeOption(delta, data) == StandardHead(delta, |data|) + data
  {
  }

  lemma {:induction false} ExtendedBack(n: nat, front: seq<byte>, back: seq<byte>)
    requires n < STANDARD_LIMIT
    ensures |StandardExtension(n)| == ExtensionSize(StandardNibble(n))
    ensures Extended(StandardNibble(n), front + StandardExtension(n) + back, |front|) == n
  {
    var b := front + StandardExtension(n) + back;
    assert n >= 13 ==> b[|front|] == StandardExtension(n)[0];
    assert n >= 269 ==> b[|front| + 1] == StandardExtension(n)[1];
  }

  /** Every option in the form of the standard is read as it is meant, and stopped right behind, be its number and its
      length as large as the standard allows. */
  lemma {:induction false} ReadsStandard(delta: nat, data: seq<byte>, last: nat, rest: seq<byte>)
    requires delta < STANDARD_LIMIT && |data| < STANDARD_LIMIT
    ensures var head := StandardHead(delta, |data|);
            WalkOption(head + data + rest, last) == Walked(Opt(last + delta, data), |head| + |data|)
  {
    var d, l := StandardExtension(delta), StandardExtension(|data|);
    var first: seq<byte> := [StandardNibble(delta) * 16 + StandardNibble(|data|)];
    var b, start := StandardHead(delta, |data|) + data + rest, 1 + |d| + |l|;
    ExtendedBack(delta, first, l + data + rest);
    ExtendedBack(|data|, first + d, data + rest);
    assert first + d + (l + data + rest) == b;
    assert (first + d) + l + (data + rest) == b;
    assert b[0] / 16 == StandardNibble(delta) && b[0] % 16 == StandardNibble(|data|);
    assert b[start..start + |data|] == data;
  }

  /** An option that has been cut short is malformed, wherever it has been cut. */
  lemma {:induction false} CutShort(delta: nat, data: seq<byte>, last: nat, n: nat)
    requires delta < STANDARD_LIMIT && |data| < STANDARD_LIMIT
    requires n < |StandardHead(delta, |data|) + data|
    ensures WalkOption((StandardHead(delta, |data|) + data)[..n], last) == Malformed
  {
    var head := StandardHead(delta, |data|);
    var b := (head + data)[..n];
    var d, l := StandardExtension(delta), StandardExtension(|data|);
    if n > 0 {
      assert b[0] == head[0] && b[0] / 16 == StandardNibble(delta) && b[0] % 16 == StandardNibble(|data|);
      if n >= |head| {
        var more := data[..n - |head|];
        assert b == head + more;
        assert [head[0]] + d + (l + more) == b && ([head[0]] + d) + l + more == b;
        ExtendedBack(|data|, [head[0]] + d, more);
      }
    }
  }

  /** What has been read of an option: whether its sizes are all there, what they are and where its data start. */
  predicate SizesRead(b: seq<byte>, ok: bool, delta: nat, length: nat, start: nat)
    requires b != []
  {
    var d, l := b[0] / 16, b[0] % 16;
    && ok == (d != 15 && l != 15 && ExtensionSize(d) + ExtensionSize(l) <= |b| - 1)
    && (ok ==>
          && start == 1 + ExtensionSize(d) + ExtensionSize(l)
          && delta == Extended(d, b, 1) && length == Extended(l, b, 1 + ExtensionSize(d)))
  }

  lemma {:induction false} WalkSized(b: seq<byte>, last: nat, ok: bool, delta: nat, length: nat, start: nat)
    requires b != [] && SizesRead(b, ok, delta, length, start)
    ensures ok ==> 0 < start <= |b|
    ensures WalkOption(b, last) ==
              if !ok || |b| - start < length then Malformed
              else Walked(Opt(last + delta, b[start..start + length]), start + length)
  {
  }

  lemma {:induction false} SliceOfSlice(all: seq<byte>, start: nat, end: nat, i: nat, n: nat)
    requires start <= end <= |all| && start + i + n <= end
    ensures all[start..end][i..i + n] == all[start + i..start + i + n]
  {
    var slice, part, direct := all[start..end], all[start..end][i..i + n], all[start + i..start + i + n];
    forall k | 0 <= k < n ensures part[k] == direct[k] {
      assert part[k] == slice[i + k] == all[start + i + k];
    }
  }

  predicate Ends(b: seq<byte>) {
    b == [] || b[0] == END_MARKER
  }

  /** The options of a list and what follows them, if every one of them can be walked. */
  datatype Listed = Listed(opts: seq<Opt>, tail: seq<byte>) | Broken

  function DecodeOptions(b: seq<byte>, last: nat): Listed
    decreases |b|
  {
    if Ends(b) then Listed([], b)
    else
      match WalkOption(b, last)
      case Malformed => Broken
      case Walked(opt, next) =>
        match DecodeOptions(b[next..], opt.number)
        case Broken => Broken
        case Listed(opts, tail) => Listed([opt] + opts, tail)
  }

  /** One step of reading a list, whatever the bytes of its first option are. */
  lemma {:induction false} DecodeStep(b: seq<byte>, last: nat, opt: Opt, next: nat, opts: seq<Opt>, tail: seq<byte>)
    requires !Ends(b) && next <= |b| && WalkOption(b, last) == Walked(opt, next)
    requires DecodeOptions(b[next..], opt.number) == Listed(opts, tail)
    ensures DecodeOptions(b, last) == Listed([opt] + opts, tail)
  {
  }

  lemma {:induction false} OptionAndTheRest(first: seq<byte>, others: seq<byte>, tail: seq<byte>)
    ensures (first + others) + tail == first + (others + tail)
  {
  }

  lemma {:induction false} ReadsFirst(o: Opt, last: nat, others: seq<byte>, opts: seq<Opt>, tail: seq<byte>)
    requires last <= o.number < last + LIMIT && |o.data| < LIMIT
    requires DecodeOptions(others + tail, o.number) == Listed(opts, tail)
    ensures DecodeOptions((EncodeOption(o.number - last, o.data) + others) + tail, last) == Listed([o] + opts, tail)
  {
    var first := EncodeOption(o.number - last, o.data);
    OptionAndTheRest(first, others, tail);
    OptionRoundTrip(o.number - last, o.data, last, others + tail);
    DecodeStep(first + (others + tail), last, o, |first|, opts, tail);
  }

  lemma {:induction false} FirstAndOthers(opts: seq<Opt>, last: nat, tail: seq<byte>, others: seq<byte>)
    requires opts != [] && Writable(opts, last) && others == EncodeOptions(opts[1..], opts[0].number)
    requires DecodeOptions((EncodeOption(opts[0].number - last, opts[0].data) + others) + tail, last) ==
               Listed([opts[0]] + opts[1..], tail)
    ensures DecodeOptions(EncodeOptions(opts, last) + tail, last) == Listed(opts, tail)
  {
    assert [opts[0]] + opts[1..] == opts;
  }

  lemma {:induction false} ListStep(opts: seq<Opt>, last: nat, tail: seq<byte>, others: seq<byte>)
    requires opts != [] && Writable(opts, last) && others == EncodeOptions(opts[1..], opts[0].number)
    requires DecodeOptions(others + tail, opts[0].number) == Listed(opts[1..], tail)
    ensures DecodeOptions(EncodeOptions(opts, last) + tail, last) == Listed(opts, tail)
  {
    assert DecodeOptions((EncodeOption(opts[0].number - last, opts[0].data) + others) + tail, last) ==
           Listed([opts[0]] + opts[1..], tail) by {
      ReadsFirst(opts[0], last, others, opts[1..], tail);
    }
    FirstAndOthers(opts, last, tail, others);
  }

  lemma {:induction false} ListEnd(last: nat, tail: seq<byte>)
    requires Ends(tail)
    ensures DecodeOptions(EncodeOptions([], last) + tail, last) == Listed([], tail)
  {
    assert [] + tail == tail;
  }

  /** Whatever list of options has been written is read back, up to the marker. */
  lemma {:induction false} OptionListRoundTrip(opts: seq<Opt>, last: nat, tail: seq<byte>)
    requires Writable(opts, last) && Ends(tail)
    ensures DecodeOptions(EncodeOptions(opts, last) + tail, last) == Listed(opts, tail)
    decreases |opts|
  {
    if opts == [] {
      ListEnd(last, tail);
    } else {
      OptionListRoundTrip(opts[1..], opts[0].number, tail);
      ListStep(opts, last, tail, EncodeOptions(opts[1..], opts[0].number));
    }
  }

  // ---------------------------------------------------------------------------------------
  // Writing and walking in a buffer.

  /** Copies `data` into the buffer. */
  method CopyInto(data: seq<byte>, buf: array<byte>, p: nat)
    requires p + |data| <= buf.Length
    modifies buf
    ensures buf[..p + |data|] == old(buf[..p]) + data
    ensures buf[p + |data|..] == old(buf[p + |data|..])
  {
    var i := 0;
    while i < |data|
      invariant i <= |data|
      invariant buf[..p + i] == old(buf[..p]) + data[..i]
      invariant buf[p + i..] == old(buf[p + i..])
    {
      buf[p + i] := data[i];
      i := i + 1;
    }
    assert data[..|data|] == data;
  }

  /** Writes one option behind what the buffer already holds. */
  method WriteOption(number: nat, data: seq<byte>, buf: array<byte>, p: nat, last: nat) returns (q: nat)
    requires last <= number < last + LIMIT && |data| < LIMIT
    requires p + 3 + |data| <= buf.Length
    modifies buf
    ensures q == p + |EncodeOption(number - last, data)| && q <= p + 3 + |data|
    ensures buf[..q] == old(buf[..p]) + EncodeOption(number - last, data)
  {
    var optionDelta, deltaExt := number - last, 0;
    if optionDelta > 12 {
      deltaExt := optionDelta - 13;
      optionDelta := 13;
    }
    var optionLen, lenExt := |data|, 0;
    if optionLen > 12 {
      lenExt := optionLen - 13;
      optionLen := 13;
    }
    ghost var front := buf[..p];
    q := WriteByte(true, optionDelta * 16 + optionLen, buf, p);
    q := WriteByte(optionDelta == 13, deltaExt, buf, q);
    q := WriteByte(optionLen == 13, lenExt, buf, q);
    CopyInto(data, buf, q);
    q := q + |data|;
    OptionPieces(front, number - last, data, optionDelta, deltaExt, optionLen, lenExt);
  }

  /** The bytes written one after the other make up the option. */
  lemma {:induction false} OptionPieces(front: seq<byte>, delta: nat, data: seq<byte>, d: nat, dExt: nat, l: nat, lExt: nat)
    requires delta < LIMIT && |data| < LIMIT && d == Nibble(delta) && l == Nibble(|data|)
    requires dExt == (if delta > 12 then delta - 13 else 0) && lExt == (if |data| > 12 then |data| - 13 else 0)
    ensures dExt < 256 && lExt < 256 && d * 16 + l < 256
    ensures (((front + Given(true, d * 16 + l)) + Given(d == 13, dExt)) + Given(l == 13, lExt)) + data ==
            front + EncodeOption(delta, data)
  {
    assert Given(d == 13, dExt) == Extension(delta) && Given(l == 13, lExt) == Extension(|data|);
  }

  function Given(present: bool, b: byte): seq<byte> {
    if present then [b] else []
  }

  /** Writes one byte if it is there to be written. */
  method WriteByte(present: bool, b: byte, buf: array<byte>, p: nat) returns (q: nat)
    requires p < buf.Length
    modifies buf
    ensures q == p + |Given(present, b)|
    ensures buf[..q] == old(buf[..p]) + Given(present, b)
  {
    q := p;
    if present {
      buf[q] := b;
      q := q + 1;
    }
  }

  /** The state of a walk over the options in a buffer. */
  class OptionWalker {
    const buf: array<byte>
    const end: nat
    var pos: nat
    var option: nat
    var value: seq<byte>

    constructor (buf: array<byte>, start: nat, end: nat)
      requires start <= end <= buf.Length
      ensures this.buf == buf && this.end == end && pos == start && option == 0
    {
      this.buf, this.end, pos, option, value := buf, end, start, 0, [];
    }

    /** Parses the option at the current position and moves behind it; gives up on malformed ones. */
    method WalkCoapOption() returns (ok: bool)
      requires pos < end <= buf.Length
      modifies this
      ensures match WalkOption(buf[old(pos)..end], old(option))
              case Malformed => !ok && pos == old(pos)
              case Walked(opt, next) => ok && option == opt.number && value == opt.data && pos == old(pos) + next
      ensures pos <= end && (ok ==> pos > old(pos))
    {
      var r := ReadOption();
      if r.Malformed? {
        return false;
      }
      option, value, pos := r.opt.number, r.opt.data, pos + r.next;
      return true;
    }

    method ReadOption() returns (r: Walk)
      requires pos < end <= buf.Length
      ensures r == WalkOption(buf[pos..end], option)
    {
      var ok, delta, length, p := ReadSizes();
      WalkSized(buf[pos..end], option, ok, delta, length, p - pos);
      if !ok || end - p < length {
        return Malformed;
      }
      SliceOfSlice(buf[..], pos, end, p - pos, length);
      return Walked(Opt(option + delta, buf[p..p + length]), p - pos + length);
    }

    /** Reads the header of an option and its extensions, if they are there. */
    method ReadSizes() returns (ok: bool, delta: nat, length: nat, p: nat)
      requires pos < end <= buf.Length
      ensures pos <= p && SizesRead(buf[pos..end], ok, delta, length, p - pos)
    {
      var header: nat := buf[pos];
      assert buf[pos..end][0] == header;
      delta, length := header / 16, header % 16;
      p := pos + 1;
      if delta == 15 || length == 15 {
        return false, delta, length, p;
      }
      var required := 0;
      if delta > 12 {
        required := required + delta - 12;
      }
      if length > 12 {
        required := required + length - 12;
      }
      if end - p < required {
        return false, delta, length, p;
      }
      delta, p := ReadExtension(delta, p);
      length, p := ReadExtension(length, p);
      return true, delta, length, p;
    }

    /** The value a nibble stands for, reading the bytes that extend it. */
    method ReadExtension(nibble: nat, p: nat) returns (n: nat, q: nat)
      requires pos <= p && p + ExtensionSize(nibble) <= end <= buf.Length && nibble < 15
      ensures q == p + ExtensionSize(nibble) && n == Extended(nibble, buf[pos..end], p - pos)
    {
      n, q := nibble, p;
      if nibble == 13 {
        n := buf[p];
        n, q := n + 13, p + 1;
      } else if nibble == 14 {
        var high: nat, low: nat := buf[p], buf[p + 1];
        n, q := high * 256 + low + 269, p + 2;
      }
    }
  }
}
