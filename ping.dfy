/** The ping example's ICMP echo package and its checksum. A package is
    64 bytes: the ICMP header (type, code, checksum, identifier and sequence
    number in its first eight bytes, then whatever else the platform's
    header structure holds, left zero) and a message of the remaining
    bytes, '0', '1', ... up to its last byte, which stays zero. The checksum
    is the Internet checksum of section 4.1 of RFC 1071, as the Echo message
    of RFC 792 requires: the package is summed as 16-bit words of the
    host's byte order (little-endian here) with a trailing odd byte added as
    is, the carries are folded back twice, and the checksum is the low 16
    bits of the complement. Sending, receiving and timing are outside the
    model. */
module Ping {

  type Byte = b: int | 0 <= b < 0x100

  const PackageSize := 64
  const IcmpEcho := 8

  /** The sum of the 16-bit little-endian words, a trailing odd byte
      added as is. */
  function WordSum(data: seq<Byte>): (r: nat)
    ensures r <= 0x1_0000 * |data|
  {
    if |data| == 0 then 0
    else if |data| == 1 then data[0]
    else data[0] + 0x100 * data[1] + WordSum(data[2..])
  }

  /** The two carry folds of the 32-bit accumulator. */
  function Fold(sum: nat): nat
  {
    var once := sum / 0x1_0000 + sum % 0x1_0000;
    once + once / 0x1_0000
  }

  /** The checksum of a package: the low 16 bits of the complement of the
      folded sum. */
  function Checksum(data: seq<Byte>): int
  {
    0xFFFF - Fold(WordSum(data)) % 0x1_0000
  }

  /** `ping_package_checksum`: the word loop over the package, then the
      folds and the complement. The 32-bit accumulator cannot wrap on a
      64-byte package. */
  method PackageChecksum(pkg: seq<Byte>) returns (result: int)
    requires |pkg| == PackageSize
    ensures result == Checksum(pkg)
    ensures 0 <= result < 0x1_0000
  {
    var sum: int := 0;
    var i := 0;
    var len := |pkg|;
    while len >= 2
      invariant 0 <= len <= |pkg| && i == |pkg| - len
      invariant sum + WordSum(pkg[i..]) == WordSum(pkg)
      invariant sum < 0x1_0000 * i + 1
    {
      assert pkg[i..][2..] == pkg[i + 2..];
      sum := sum + (pkg[i] as int + 0x100 * pkg[i + 1] as int);
      i := i + 2;
      len := len - 2;
    }
    if len == 1 {
      sum := sum + pkg[i] as int;
    }
    assert sum == WordSum(pkg);
    sum := sum / 0x1_0000 + sum % 0x1_0000;
    sum := sum + sum / 0x1_0000;
    result := 0xFFFF - sum % 0x1_0000;
  }

  /** The folds compute the ones'-complement sum of RFC 1071: the value
      equals the plain sum modulo 0xFFFF, is 0 only for a zero sum, and is
      0xFFFF (never 0) for a non-zero multiple of 0xFFFF. */
  lemma FoldIsOnesComplementSum(sum: nat)
    requires sum < 0x1_0000_0000
    ensures Fold(sum) % 0x1_0000 == if sum == 0 then 0 else (sum - 1) % 0xFFFF + 1
  {
    var high := sum / 0x1_0000;
    var low := sum % 0x1_0000;
    var once := high + low;
    assert sum == 0x1_0000 * high + low;
    assert sum - once == 0xFFFF * high;
    assert high <= 0xFFFF && once <= 0x1_FFFE;
    if sum > 0 {
      assert once > 0;
      var q := (once - 1) / 0xFFFF;
      assert (sum - 1) % 0xFFFF == (once - 1) % 0xFFFF by {
        assert sum - 1 == 0xFFFF * high + (once - 1);
        ModuloShift(once - 1, high);
      }
      if once >= 0x1_0000 {
        assert once / 0x1_0000 == 1;
        assert (once - 1) % 0xFFFF == once - 0x1_0000 by {
          assert once - 1 == 0xFFFF + (once - 0x1_0000);
          ModuloShift(once - 0x1_0000, 1);
        }
      } else {
        assert once / 0x1_0000 == 0;
        if once == 0xFFFF {
          assert (once - 1) % 0xFFFF == 0xFFFE;
        }
      }
    }
  }

  lemma ModuloShift(r: nat, k: nat)
    ensures (0xFFFF * k + r) % 0xFFFF == r % 0xFFFF
  {
  }

  /** The receiver's check of RFC 1071: a package summed with its checksum
      field at zero, and then given that checksum, sums to the checksum 0. */
  lemma ChecksumVerifies(pkg: seq<Byte>)
    requires |pkg| == PackageSize && pkg[2] == 0 && pkg[3] == 0
    ensures var c := Checksum(pkg);
      0 <= c < 0x1_0000 && Checksum(pkg[2 := c % 0x100][3 := c / 0x100]) == 0
  {
    var c := Checksum(pkg);
    var filled := pkg[2 := c % 0x100][3 := c / 0x100];
    var s := WordSum(pkg);
    assert WordSum(filled) == s + c by {
      assert filled[2..][2..] == pkg[2..][2..];
      assert c % 0x100 + 0x100 * (c / 0x100) == c;
      assert WordSum(filled[2..]) == c + WordSum(filled[2..][2..]);
      assert WordSum(pkg[2..]) == WordSum(pkg[2..][2..]);
    }
    FoldIsOnesComplementSum(s);
    FoldIsOnesComplementSum(s + c);
    if s > 0 {
      var q := (s - 1) / 0xFFFF;
      assert s + c - 1 == 0xFFFF * q + 0xFFFE;
      ModuloShift(0xFFFE, q);
    }
  }

  /** The message that follows a header of `headerSize` bytes: '0', '1',
      ... and a zero last byte. */
  function Message(headerSize: nat): (m: seq<Byte>)
    requires 8 <= headerSize < PackageSize
    ensures |m| == PackageSize - headerSize
  {
    seq(PackageSize - headerSize, i requires 0 <= i < PackageSize - headerSize =>
      if i < PackageSize - headerSize - 1 then '0' as int + i else 0)
  }

  /** The package before its checksum: type echo, code 0, checksum 0, the
      identifier (the process id cut to 16 bits) and the sequence number,
      the rest of the header zero, then the message. */
  function Unsummed(sequence: int, pid: nat, headerSize: nat): (p: seq<Byte>)
    requires 0 <= sequence < 0x1_0000 && 8 <= headerSize < PackageSize
    ensures |p| == PackageSize
  {
    var id := pid % 0x1_0000;
    [IcmpEcho, 0, 0, 0, id % 0x100, id / 0x100, sequence % 0x100, sequence / 0x100]
    + seq(headerSize - 8, _ => 0) + Message(headerSize)
  }

  /** The package as sent: the unsummed package with its checksum. */
  function Package(sequence: int, pid: nat, headerSize: nat): (p: seq<Byte>)
    requires 0 <= sequence < 0x1_0000 && 8 <= headerSize < PackageSize
    ensures |p| == PackageSize
  {
    var u := Unsummed(sequence, pid, headerSize);
    var c := Checksum(u);
    u[2 := c % 0x100][3 := c / 0x100]
  }

  /** A package as sent passes the receiver's checksum test, and carries
      its sequence number and the message. */
  lemma PackageIsValid(sequence: int, pid: nat, headerSize: nat)
    requires 0 <= sequence < 0x1_0000 && 8 <= headerSize < PackageSize
    ensures var p := Package(sequence, pid, headerSize);
      && Checksum(p) == 0
      && p[0] == IcmpEcho && p[1] == 0
      && p[6] as int + 0x100 * p[7] as int == sequence
      && p[headerSize..] == Message(headerSize)
  {
    var u := Unsummed(sequence, pid, headerSize);
    ChecksumVerifies(u);
    var p := Package(sequence, pid, headerSize);
    assert p[headerSize..] == u[headerSize..];
  }

  /** The message is the digits and letters from '0' on, one per byte, and
      a final zero. */
  lemma MessageContents(headerSize: nat)
    requires 8 <= headerSize < PackageSize
    ensures var m := Message(headerSize);
      && m[|m| - 1] == 0
      && forall i :: 0 <= i < |m| - 1 ==> m[i] == '0' as int + i
  {
  }

  /** The layout of the unsummed package, byte by byte. */
  lemma UnsummedLayout(sequence: int, pid: nat, headerSize: nat)
    requires 0 <= sequence < 0x1_0000 && 8 <= headerSize < PackageSize
    ensures var u := Unsummed(sequence, pid, headerSize); var id := pid % 0x1_0000;
      && u[0] == IcmpEcho && u[1] == 0 && u[2] == 0 && u[3] == 0
      && u[4] == id % 0x100 && u[5] == id / 0x100 && u[6] == sequence % 0x100 && u[7] == sequence / 0x100
      && (forall k :: 8 <= k < headerSize ==> u[k] == 0)
      && (forall k :: headerSize <= k < PackageSize - 1 ==> u[k] == '0' as int + (k - headerSize))
      && u[PackageSize - 1] == 0
  {
    var u := Unsummed(sequence, pid, headerSize);
    var m := Message(headerSize);
    forall k | headerSize <= k < PackageSize ensures u[k] == m[k - headerSize] {
    }
  }

  /** One turn of the ping loop up to the checksum: a zeroed package, the
      header fields, the message loop, then the checksum written in. */
  method PreparePackage(sequence: int, pid: nat, headerSize: nat) returns (pkg: array<Byte>)
    requires 0 <= sequence < 0x1_0000 && 8 <= headerSize < PackageSize
    ensures fresh(pkg) && pkg[..] == Package(sequence, pid, headerSize)
  {
    ghost var u := Unsummed(sequence, pid, headerSize);
    UnsummedLayout(sequence, pid, headerSize);
    pkg := new Byte[PackageSize](_ => 0);
    pkg[0] := IcmpEcho;
    var id := pid % 0x1_0000;
    pkg[4], pkg[5] := id % 0x100, id / 0x100;
    pkg[6], pkg[7] := sequence % 0x100, sequence / 0x100;
    var messageSize := PackageSize - headerSize;
    for i := 0 to messageSize - 1
      invariant forall k :: 0 <= k < headerSize + i ==> pkg[k] == u[k]
      invariant forall k :: headerSize + i <= k < PackageSize ==> pkg[k] == 0
    {
      pkg[headerSize + i] := '0' as int + i;
    }
    assert pkg[..] == u;
    var c := PackageChecksum(pkg[..]);
    pkg[2], pkg[3] := c % 0x100, c / 0x100;
  }

  /** The ping loop's sequence numbers: a 16-bit counter from 0, one
      package per turn, wrapping after 65535. Every package prepared passes
      the checksum test. */
  method PreparePackages(turns: nat, pid: nat, headerSize: nat) returns (packages: seq<seq<Byte>>)
    requires 8 <= headerSize < PackageSize
    ensures |packages| == turns
    ensures forall k :: 0 <= k < turns ==> packages[k] == Package(k % 0x1_0000, pid, headerSize)
    ensures forall k :: 0 <= k < turns ==> Checksum(packages[k]) == 0
  {
    packages := [];
    var sequence := 0;
    for k := 0 to turns
      invariant |packages| == k && sequence == k % 0x1_0000
      invariant forall j :: 0 <= j < k ==> packages[j] == Package(j % 0x1_0000, pid, headerSize)
    {
      var pkg := PreparePackage(sequence, pid, headerSize);
      packages := packages + [pkg[..]];
      CounterWraps(k);
      sequence := (sequence + 1) % 0x1_0000;
    }
    forall k | 0 <= k < turns ensures Checksum(packages[k]) == 0 {
      PackageIsValid(k % 0x1_0000, pid, headerSize);
    }
  }

  /** The 16-bit counter after one more turn. */
  lemma CounterWraps(k: nat)
    ensures (k % 0x1_0000 + 1) % 0x1_0000 == (k + 1) % 0x1_0000
  {
  }
}
