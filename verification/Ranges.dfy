/** The mutable iterator over a CIDR block (pkg/util/cidr_util.go). */
module Ranges {
  import opened Results
  import opened Addr

  class Range {
    var ip: IPv4
    var iplong: nat
    const lastiplong: nat
    const step: nat
    const mask: nat

    /** 0-based position in the block; the counter may stand one past the last address, and one
        past 2^32, where `ip` has already wrapped. */
    ghost predicate At(r: Cidr, i: nat)
      requires r.mask <= 32
      reads this
    {
      && Aligned(r) && mask == r.mask && step == 1
      && i <= Size(r.mask)
      && iplong == r.ip + i
      && lastiplong == r.ip + Size(r.mask) - 1
      && ip == Long2IP(iplong)
    }

    constructor (c: Cidr, blockSize: nat)
      requires c.Wf() && c.mask <= blockSize <= 32
      ensures ip == Long2IP(c.ip) && iplong == c.ip && mask == c.mask
      ensures step == Pow2(32 - blockSize) && lastiplong == c.ip + Size(c.mask) - 1
    {
      ip := Long2IP(c.ip);
      iplong := c.ip;
      lastiplong := (c.ip + Size(c.mask) - 1) % WORD;
      step := Pow2(32 - blockSize);
      mask := c.mask;
      new;
      SizeFacts(c.mask);
    }

    /** One step in 64-bit arithmetic. */
    method Next() returns (more: bool)
      modifies this
      ensures iplong == (old(iplong) + step) % WORD && ip == Long2IP(iplong)
      ensures more <==> iplong <= lastiplong
    {
      iplong := (iplong + step) % WORD;
      ip := Long2IP(iplong);
      more := iplong <= lastiplong;
    }

    /** Next, seen as a position in a block: it never wraps the 64-bit counter. */
    method Advance(ghost r: Cidr, ghost i: nat) returns (more: bool)
      requires r.mask <= 32 && At(r, i) && i < Size(r.mask)
      modifies this
      ensures At(r, i + 1)
      ensures more <==> i + 1 < Size(r.mask)
    {
      AlignedFits(r);
      more := Next();
    }
  }

  /** NewRangeWithBlockSize: `text` is what ParseCIDR makes of the argument. */
  method NewRangeWithBlockSize(text: Option<Cidr>, blockSize: nat) returns (r: Result<Range>)
    requires text.Some? ==> text.value.Wf()
    ensures r.Ok? <==> text.Some? && Aligned(text.value) && text.value.mask <= blockSize <= 32
    ensures r.Ok? ==>
              && fresh(r.value) && r.value.iplong == text.value.ip && r.value.mask == text.value.mask
              && r.value.step == Pow2(32 - blockSize)
              && (blockSize == 32 ==> r.value.At(text.value, 0))
  {
    if text.None? { return Err(BadCIDR); }
    if text.value.ip != Base(text.value) { return Err(InvalidCIDR); }
    if text.value.mask > blockSize || blockSize > 32 { return Err(BlockSize); }
    var g := new Range(text.value, blockSize);
    return Ok(g);
  }

  method NewRange(text: Option<Cidr>) returns (r: Result<Range>)
    requires text.Some? ==> text.value.Wf()
    ensures r.Ok? <==> text.Some? && Aligned(text.value)
    ensures r.Ok? ==> fresh(r.value) && r.value.At(text.value, 0)
  {
    r := NewRangeWithBlockSize(text, 32);
  }

  /** List terminates on every aligned block, 0.0.0.0/0 and blocks ending at 255.255.255.255
      included, and yields all its addresses in order. */
  method List(text: Option<Cidr>) returns (ips: Result<seq<IPv4>>)
    requires text.Some? ==> text.value.Wf()
    ensures ips.Ok? <==> text.Some? && Aligned(text.value)
    ensures ips.Ok? ==>
              && |ips.value| == Size(text.value.mask)
              && forall i :: 0 <= i < |ips.value| ==> IP2Long(ips.value[i]) == text.value.ip + i
  {
    hide IP2Long, Long2IP;
    var g := NewRange(text);
    if g.Err? { return Err(g.error); }
    var r := g.value;
    ghost var c := text.value;
    AlignedFits(c);
    var out: seq<IPv4> := [];
    ghost var i: nat := 0;
    var more := true;
    while more
      invariant r.At(c, i) && i == |out|
      invariant more <==> i < Size(c.mask)
      invariant forall k :: 0 <= k < |out| ==> IP2Long(out[k]) == c.ip + k
      decreases Size(c.mask) - i
    {
      Truncation(r.iplong);
      out := out + [r.ip];
      more := r.Advance(c, i);
      i := i + 1;
    }
    return Ok(out);
  }

  method RangeLength(text: Option<Cidr>) returns (n: nat)
    requires text.Some? ==> text.value.Wf()
    ensures n == if text.Some? && Aligned(text.value) then Size(text.value.mask) else 0
  {
    var ips := List(text);
    if ips.Err? { return 0; }
    return |ips.value|;
  }

  /** Options.Default: whatever is configured, the pod range offers at least four addresses and
      the router range at least five, both are aligned, and a usable setting is kept. */
  method Default(text: Option<Cidr>, fallback: Cidr, least: nat) returns (c: Cidr)
    requires text.Some? ==> text.value.Wf()
    requires Aligned(fallback) && Size(fallback.mask) >= least > 0
    ensures Aligned(c) && Size(c.mask) >= least
    ensures c == if text.Some? && Aligned(text.value) && Size(text.value.mask) >= least then text.value else fallback
    ensures least == 4 ==> c.mask <= 30
    ensures least == 5 ==> c.mask <= 29
  {
    var size := RangeLength(text);
    if size < least { c := fallback; } else { c := text.value; }
    SizeFacts(c.mask);
  }
}
