/** Writing into a byte buffer in place: the binary protocol's writers, and how pieces written
    one after the other, or a header patched in afterwards, add up. */
module ThriftWriter {
  import opened ThriftBinary

  /** `after` is `before` with the bytes put at `off`; `next` is the offset behind them. */
  ghost predicate Wrote(before: seq<byte>, after: seq<byte>, off: nat, next: nat, bytes: seq<byte>) {
    && next == off + |bytes| <= |before|
    && after == before[..off] + bytes + before[next..]
  }

  lemma NothingWrote(before: seq<byte>, off: nat)
    requires off <= |before|
    ensures Wrote(before, before, off, off, [])
  {
    assert before == before[..off] + [] + before[off..];
  }

  lemma WroteBoth(a: seq<byte>, b: seq<byte>, c: seq<byte>, off: nat, mid: nat, next: nat, x: seq<byte>, y: seq<byte>)
    requires Wrote(a, b, off, mid, x) && Wrote(b, c, mid, next, y)
    ensures Wrote(a, c, off, next, x + y)
  {
    assert b[..mid] == a[..off] + x;
    assert b[next..] == a[next..];
  }

  /** The body first, the header in front of it afterwards. */
  lemma BackPatched(a: seq<byte>, b: seq<byte>, c: seq<byte>, off: nat, mid: nat, next: nat, header: seq<byte>, body: seq<byte>)
    requires Wrote(a, b, mid, next, body) && Wrote(b, c, off, mid, header)
    ensures Wrote(a, c, off, next, header + body)
  {
    assert b[..off] == a[..off];
    assert b[mid..] == body + a[next..];
  }

  lemma WroteAt(before: seq<byte>, after: seq<byte>, off: nat, next: nat, bytes: seq<byte>)
    requires Wrote(before, after, off, next, bytes)
    ensures At(after, off, bytes) && |after| == |before|
  {
  }

  lemma WroteEnds(before: seq<byte>, after: seq<byte>, off: nat, next: nat, bytes: seq<byte>)
    requires Wrote(before, after, off, next, bytes)
    ensures |after| == |before| && next == off + |bytes| <= |before|
  {
  }

  method Put(buf: array<byte>, off: nat, bytes: seq<byte>) returns (next: nat)
    requires off + |bytes| <= buf.Length
    modifies buf
    ensures Wrote(old(buf[..]), buf[..], off, next, bytes)
  {
    NothingWrote(buf[..], off);
    for i := 0 to |bytes|
      invariant Wrote(old(buf[..]), buf[..], off, off + i, bytes[..i])
    {
      ghost var b := buf[..];
      buf[off + i] := bytes[i];
      assert buf[..] == b[..off + i] + [bytes[i]] + b[off + i + 1..];
      WroteBoth(old(buf[..]), b, buf[..], off, off + i, off + i + 1, bytes[..i], [bytes[i]]);
      assert bytes[..i] + [bytes[i]] == bytes[..i + 1];
    }
    assert bytes[..|bytes|] == bytes;
    next := off + |bytes|;
  }

  method WriteFieldBegin(buf: array<byte>, off: nat, ty: byte, id: int) returns (next: nat)
    requires off + 3 <= buf.Length
    modifies buf
    ensures Wrote(old(buf[..]), buf[..], off, next, [ty] + BigEndian(2, id))
  {
    next := Put(buf, off, [ty] + BigEndian(2, id));
  }

  method WriteFieldStop(buf: array<byte>, off: nat) returns (next: nat)
    requires off < buf.Length
    modifies buf
    ensures Wrote(old(buf[..]), buf[..], off, next, [STOP])
  {
    next := Put(buf, off, [STOP]);
  }

  /** An integer of n bytes. */
  method WriteInt(buf: array<byte>, off: nat, n: nat, x: int) returns (next: nat)
    requires off + n <= buf.Length
    modifies buf
    ensures Wrote(old(buf[..]), buf[..], off, next, BigEndian(n, x))
  {
    next := Put(buf, off, BigEndian(n, x));
  }

  method WriteString(buf: array<byte>, off: nat, s: seq<byte>) returns (next: nat)
    requires off + 4 + |s| <= buf.Length
    modifies buf
    ensures Wrote(old(buf[..]), buf[..], off, next, SizeBytes(|s|) + s)
  {
    next := Put(buf, off, SizeBytes(|s|) + s);
  }

  method WriteListBegin(buf: array<byte>, off: nat, elem: byte, n: nat) returns (next: nat)
    requires off + 5 <= buf.Length
    modifies buf
    ensures Wrote(old(buf[..]), buf[..], off, next, [elem] + SizeBytes(n))
  {
    next := Put(buf, off, [elem] + SizeBytes(n));
  }
}
