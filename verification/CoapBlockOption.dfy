/** The value of the Block1 option: block number, more-flag and the exponent of the block size. */
module CoapBlockOption {
  import opened CoapPdu
  import opened Options

  function Shifted(high: nat, low: nat): nat {
    high * 256 + low
  }

  /** Big-endian value of a byte string. */
  function Unsigned(s: seq<byte>): nat {
    if s == [] then 0 else Shifted(Unsigned(s[..|s| - 1]), s[|s| - 1])
  }

  function TwoBytes(n: nat): seq<byte> {
    [n / 256 % 256, n % 256]
  }

  function ThreeBytes(n: nat): seq<byte> {
    [n / 0x1_0000 % 256, n / 256 % 256, n % 256]
  }

  lemma {:induction false} UnsignedOfTwo(s: seq<byte>)
    requires |s| == 2
    ensures Unsigned(s) == Shifted(s[0], s[1])
  {
    assert s[..1] == [s[0]] && s[..1][..0] == [];
    assert Unsigned([s[0]]) == s[0];
  }

  lemma {:induction false} UnsignedOfThree(s: seq<byte>)
    requires |s| == 3
    ensures Unsigned(s) == Shifted(Shifted(s[0], s[1]), s[2])
  {
    UnsignedOfTwo(s[..2]);
  }

  function BlockBytes(exponent: nat): nat {
    if exponent == 0 then 16 else 2 * BlockBytes(exponent - 1)
  }

  function SizeExponent(size: nat): (e: nat)
    requires IsBlockSize(size)
    ensures e < 7
  {
    match size
    case 1024 => 6
    case 512 => 5
    case 256 => 4
    case 128 => 3
    case 64 => 2
    case 32 => 1
    case _ => 0
  }

  lemma {:induction false} SizeRoundTrip(size: nat)
    requires IsBlockSize(size)
    ensures BlockBytes(SizeExponent(size)) == size
  {
    assert BlockBytes(0) == 16 && BlockBytes(1) == 32 && BlockBytes(2) == 64 && BlockBytes(3) == 128;
    assert BlockBytes(4) == 256 && BlockBytes(5) == 512 && BlockBytes(6) == 1024;
  }

  function Word(b: Block1): nat
    requires IsBlockSize(b.size)
  {
    b.num * 16 + (if b.more then 8 else 0) + SizeExponent(b.size)
  }

  function BlockValue(b: Block1): seq<byte>
    requires IsBlockSize(b.size)
  {
    if b.num < 16 then [Word(b)] else if b.num < 4096 then TwoBytes(Word(b)) else ThreeBytes(Word(b))
  }

  function ParseBlock(s: seq<byte>): Block1 {
    if s == [] then Block1(0, false, 16)
    else Block1(Unsigned(s) / 16, Unsigned(s) / 8 % 2 == 1, BlockBytes(Unsigned(s) % 8))
  }

  lemma {:induction false} TwoDigits(high: nat, low: nat)
    requires low < 256
    ensures (high * 256 + low) % 0x1_0000 == high % 256 * 256 + low
  {
    assert high == high / 256 * 256 + high % 256;
    assert high * 256 + low == high / 256 * 0x1_0000 + (high % 256 * 256 + low);
  }

  lemma {:induction false} TwoBytesBack(n: nat)
    ensures Unsigned(TwoBytes(n)) == n % 0x1_0000
  {
    UnsignedOfTwo(TwoBytes(n));
    TwoDigits(n / 256, n % 256);
  }

  lemma {:induction false} ThreeDigits(high: nat, mid: nat, low: nat)
    requires mid < 256 && low < 256
    ensures ((high * 256 + mid) * 256 + low) % 0x100_0000 == (high % 256 * 256 + mid) * 256 + low
  {
    assert high == high / 256 * 256 + high % 256;
    assert (high * 256 + mid) * 256 + low == high / 256 * 0x100_0000 + ((high % 256 * 256 + mid) * 256 + low);
  }

  lemma {:induction false} ThreeBytesBack(n: nat)
    ensures Unsigned(ThreeBytes(n)) == n % 0x100_0000
  {
    UnsignedOfThree(ThreeBytes(n));
    ThreeDigits(n / 0x1_0000, n / 256 % 256, n % 256);
    assert n == n / 256 * 256 + n % 256 && n / 256 == n / 256 / 256 * 256 + n / 256 % 256;
  }

  lemma {:induction false} ValueOfBlock(b: Block1)
    requires IsBlockSize(b.size)
    ensures 1 <= |BlockValue(b)| <= 3
    ensures Unsigned(BlockValue(b)) == Word(b) % 0x100_0000
  {
    if b.num < 16 {
      OneByteBack(Word(b));
      SmallWord(Word(b));
    } else if b.num < 4096 {
      TwoBytesBack(Word(b));
      SmallWord(Word(b));
    } else {
      ThreeBytesBack(Word(b));
    }
  }

  lemma {:induction false} SmallWord(word: nat)
    requires word < 0x1_0000
    ensures word % 0x1_0000 == word && word % 0x100_0000 == word
  {
  }

  lemma {:induction false} OneByteBack(n: byte)
    ensures Unsigned([n]) == n
  {
    assert [n][..0] == [];
  }

  /** Only the low 20 bits of the number fit. */
  lemma {:induction false} WordThatFits(num: nat, low: nat)
    requires low < 16
    ensures (num * 16 + low) % 0x100_0000 == num % 0x10_0000 * 16 + low
  {
    var high, k := num / 0x10_0000, num % 0x10_0000;
    assert num == high * 0x10_0000 + k;
    assert num * 16 + low == high * 0x100_0000 + (k * 16 + low);
  }

  lemma {:induction false} FieldsOfSmallWord(k: nat, more: bool, exponent: nat)
    requires exponent < 7
    ensures var word := k * 16 + (if more then 8 else 0) + exponent;
            word / 16 == k && word / 8 % 2 == (if more then 1 else 0) && word % 8 == exponent
  {
    var word := k * 16 + (if more then 8 else 0) + exponent;
    assert word / 8 == 2 * k + (if more then 1 else 0);
  }

  lemma {:induction false} FieldsOfWord(num: nat, more: bool, exponent: nat)
    requires exponent < 7
    ensures var word := (num * 16 + (if more then 8 else 0) + exponent) % 0x100_0000;
            word / 16 == num % 0x10_0000 && word / 8 % 2 == (if more then 1 else 0) && word % 8 == exponent
  {
    WordThatFits(num, (if more then 8 else 0) + exponent);
    FieldsOfSmallWord(num % 0x10_0000, more, exponent);
  }

  lemma {:induction false} Parts(s: seq<byte>, num: nat, more: bool, exponent: nat)
    requires s != [] && exponent < 7
    requires Unsigned(s) / 16 == num && Unsigned(s) / 8 % 2 == (if more then 1 else 0) && Unsigned(s) % 8 == exponent
    ensures ParseBlock(s) == Block1(num, more, BlockBytes(exponent))
  {
  }

  lemma {:induction false} FieldsOfValue(b: Block1)
    requires IsBlockSize(b.size)
    ensures var w := Unsigned(BlockValue(b));
            w / 16 == b.num % 0x10_0000 && w / 8 % 2 == (if b.more then 1 else 0) && w % 8 == SizeExponent(b.size)
  {
    FieldsOfWord(b.num, b.more, SizeExponent(b.size));
    ValueOfBlock(b);
  }

  lemma {:induction false} BlockReadBack(b: Block1)
    requires IsBlockSize(b.size)
    ensures ParseBlock(BlockValue(b)) == b.(num := b.num % 0x10_0000)
  {
    FieldsOfValue(b);
    SizeRoundTrip(b.size);
    Parts(BlockValue(b), b.num % 0x10_0000, b.more, SizeExponent(b.size));
  }

  /** A block survives the trip exactly if its number fits into 20 bits. */
  lemma {:induction false} BlockRoundTrip(b: Block1)
    requires IsBlockSize(b.size)
    ensures ParseBlock(BlockValue(b)) == b <==> b.num < 0x10_0000
  {
    BlockReadBack(b);
  }

  /** What the parser makes of any block option; the eighth exponent, reserved by the standard, is read as 2048. */
  lemma {:induction false} ParsedSize(s: seq<byte>)
    ensures IsReceivedSize(ParseBlock(s).size)
  {
    assert BlockBytes(0) == 16 && BlockBytes(1) == 32 && BlockBytes(2) == 64 && BlockBytes(3) == 128;
    assert BlockBytes(4) == 256 && BlockBytes(5) == 512 && BlockBytes(6) == 1024 && BlockBytes(7) == 2048;
  }
}
