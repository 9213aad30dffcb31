/**
 * An EtherCAT domain (master/domain.c): a process-data image assembled from
 * the FMMU configurations of several slave configurations, exchanged with
 * the bus by a list of datagram pairs (one datagram per link, main and
 * backup).
 *
 * The first part of the module states, as pure functions, how
 * ec_domain_finish cuts the FMMU list into datagrams and how
 * ecrt_domain_process walks from FMMUs to datagram pairs; the lemmas say
 * what those cuts and walks guarantee. The class Domain at the end holds
 * the fields the C functions update in place, and its methods are proved
 * against these functions.
 */
module Domain {
  import opened Globals

  /** FMMU configuration (ec_fmmu_config_t): which slave configuration it
   *  belongs to, its direction, where its data lie in the logical address
   *  space and how many bytes it maps. */
  datatype FmmuConfig = FmmuConfig(sc: nat, dir: Direction, logicalStartAddress: U32, dataSize: nat)

  /** Two FMMUs that belong to the same slave configuration and direction
   *  add to a datagram's working counter only once. */
  predicate SameSlot(a: FmmuConfig, b: FmmuConfig)
  {
    a.sc == b.sc && a.dir == b.dir
  }

  /** Some FMMU from position first up to, but excluding, cur has cur's slave
   *  configuration and direction. */
  predicate CountedBefore(f: seq<FmmuConfig>, first: nat, cur: nat)
    requires first <= cur < |f|
  {
    exists m {:trigger SameSlot(f[m], f[cur])} :: first <= m < cur && SameSlot(f[m], f[cur])
  }

  /** Bytes mapped by the first n FMMUs. */
  function SizeUpTo(f: seq<FmmuConfig>, n: nat): nat
    requires n <= |f|
  {
    if n == 0 then 0 else SizeUpTo(f, n - 1) + f[n - 1].dataSize
  }

  /** Bytes mapped by all FMMUs: the size of the domain's process data. */
  function Total(f: seq<FmmuConfig>): nat
  {
    SizeUpTo(f, |f|)
  }

  /** Every FMMU fits into one datagram on its own. */
  predicate AllFit(f: seq<FmmuConfig>)
  {
    forall i :: 0 <= i < |f| ==> f[i].dataSize <= MaxDataSize
  }

  /** The datagram_used[] counters: how many slave-configuration slots of
   *  each direction a datagram carries. */
  datatype Used = Used(outputs: nat, inputs: nat)

  function Bump(u: Used, d: Direction): Used
  {
    match d
    case Output => u.(outputs := u.outputs + 1)
    case Input => u.(inputs := u.inputs + 1)
  }

  /** One datagram as ec_domain_finish requests it: its offset in the
   *  process data, its size, its counters, the position of the FMMU that
   *  opened it (datagram_first_fmmu) and the position of the FMMU that was
   *  being looked at when it was requested (|f| for the last one). */
  datatype Chunk = Chunk(offset: nat, size: nat, used: Used, first: nat, at: nat)

  /** The accumulators of the loop in ec_domain_finish: datagram_offset,
   *  datagram_size, datagram_used, the position of datagram_first_fmmu and
   *  the datagrams requested so far. */
  datatype Scan = Scan(offset: nat, size: nat, used: Used, first: nat, chunks: seq<Chunk>)

  /** The accumulators after the loop has looked at the first n FMMUs. The
   *  counter of an FMMU is bumped before the fit check, so an FMMU that
   *  opens a new datagram is counted in the previous one. */
  function ScanTo(f: seq<FmmuConfig>, n: nat): (s: Scan)
    requires n <= |f|
    ensures if n == 0 then s.first == 0 else s.first < n
  {
    if n == 0 then Scan(0, 0, Used(0, 0), 0, [])
    else
      var s := ScanTo(f, n - 1);
      var i := n - 1;
      var u := if CountedBefore(f, s.first, i) then s.used else Bump(s.used, f[i].dir);
      if s.size + f[i].dataSize > MaxDataSize then
        Scan(s.offset + s.size, f[i].dataSize, Used(0, 0), i, s.chunks + [Chunk(s.offset, s.size, u, s.first, i)])
      else
        Scan(s.offset, s.size + f[i].dataSize, u, s.first, s.chunks)
  }

  /** The datagrams ec_domain_finish requests for the FMMU list f, in order:
   *  the ones cut inside the loop, then the last one if data are left. */
  function Layout(f: seq<FmmuConfig>): seq<Chunk>
  {
    var s := ScanTo(f, |f|);
    if s.size != 0 then s.chunks + [Chunk(s.offset, s.size, s.used, s.first, |f|)] else s.chunks
  }

  /** Bytes carried by a list of datagrams. */
  function ChunkBytes(cs: seq<Chunk>): nat
  {
    if cs == [] then 0 else ChunkBytes(cs[..|cs| - 1]) + cs[|cs| - 1].size
  }

  /** Each datagram starts where the ones before it end. */
  predicate Contiguous(cs: seq<Chunk>)
  {
    forall k :: 0 <= k < |cs| ==> cs[k].offset == ChunkBytes(cs[..k])
  }

  lemma ChunkBytesAppend(cs: seq<Chunk>, c: Chunk)
    ensures ChunkBytes(cs + [c]) == ChunkBytes(cs) + c.size
  {
    assert (cs + [c])[..|cs|] == cs;
  }

  lemma ContiguousAppend(cs: seq<Chunk>, c: Chunk)
    requires Contiguous(cs) && c.offset == ChunkBytes(cs)
    ensures Contiguous(cs + [c])
  {
    var cs' := cs + [c];
    forall k | 0 <= k < |cs'|
      ensures cs'[k].offset == ChunkBytes(cs'[..k])
    {
      if k < |cs| {
        assert cs'[..k] == cs[..k];
      } else {
        assert cs'[..k] == cs;
      }
    }
  }

  /** The loop keeps its offset at the end of the datagrams requested so
   *  far, and offset plus the open datagram's size covers the FMMUs seen. */
  lemma {:induction false} ScanCovers(f: seq<FmmuConfig>, n: nat)
    requires n <= |f|
    ensures var s := ScanTo(f, n);
      && s.offset == ChunkBytes(s.chunks)
      && s.offset + s.size == SizeUpTo(f, n)
      && Contiguous(s.chunks)
  {
    if n > 0 {
      ScanCovers(f, n - 1);
      var s := ScanTo(f, n - 1);
      var s' := ScanTo(f, n);
      if s.size + f[n - 1].dataSize > MaxDataSize {
        var c := s'.chunks[|s'.chunks| - 1];
        assert s'.chunks == s.chunks + [c];
        ChunkBytesAppend(s.chunks, c);
        ContiguousAppend(s.chunks, c);
      } else {
        assert s'.chunks == s.chunks && s'.offset == s.offset;
      }
    }
  }

  /** The datagrams of the layout are contiguous, start at offset 0 and
   *  together carry exactly the domain's process data. */
  lemma LayoutCovers(f: seq<FmmuConfig>)
    ensures Contiguous(Layout(f))
    ensures ChunkBytes(Layout(f)) == Total(f)
  {
    ScanCovers(f, |f|);
    var s := ScanTo(f, |f|);
    if s.size != 0 {
      var c := Chunk(s.offset, s.size, s.used, s.first, |f|);
      ChunkBytesAppend(s.chunks, c);
      ContiguousAppend(s.chunks, c);
    }
  }

  /** When every FMMU fits into a datagram, the open datagram never exceeds
   *  the limit and every datagram requested is non-empty and within it. */
  lemma {:induction false} ScanWithinLimit(f: seq<FmmuConfig>, n: nat)
    requires n <= |f| && AllFit(f)
    ensures ScanTo(f, n).size <= MaxDataSize
    ensures forall k :: 0 <= k < |ScanTo(f, n).chunks| ==> 0 < ScanTo(f, n).chunks[k].size <= MaxDataSize
  {
    if n > 0 {
      ScanWithinLimit(f, n - 1);
    }
  }

  /** Under the assumption ec_domain_finish leaves unchecked (its \todo),
   *  every datagram is non-empty and at most EC_MAX_DATA_SIZE bytes. */
  lemma LayoutWithinLimit(f: seq<FmmuConfig>)
    requires AllFit(f)
    ensures forall k :: 0 <= k < |Layout(f)| ==> 0 < Layout(f)[k].size <= MaxDataSize
  {
    ScanWithinLimit(f, |f|);
  }

  /** No FMMUs, no datagrams. */
  lemma LayoutOfEmpty(f: seq<FmmuConfig>)
    requires f == []
    ensures Layout(f) == []
  {
  }

  /** Without the assumption, an FMMU larger than the limit at the head of
   *  the list makes the loop request an empty datagram first. */
  lemma OversizedHeadGivesEmptyDatagram(f: seq<FmmuConfig>)
    requires |f| > 0 && f[0].dataSize > MaxDataSize
    ensures |Layout(f)| > 0 && Layout(f)[0].size == 0
  {
    ScanPrefix(f, 1, |f|);
  }

  /** The datagrams requested after n FMMUs are still the first ones after
   *  m >= n FMMUs. */
  lemma {:induction false} ScanPrefix(f: seq<FmmuConfig>, n: nat, m: nat)
    requires n <= m <= |f|
    ensures ScanTo(f, n).chunks <= ScanTo(f, m).chunks
  {
    if n < m {
      ScanPrefix(f, n, m - 1);
    }
  }

  /** Number of FMMUs at positions lo up to hi with direction d whose slot
   *  has not been seen since position first: what the loop adds to
   *  datagram_used[d] over that range. */
  function Fresh(f: seq<FmmuConfig>, first: nat, lo: nat, hi: nat, d: Direction): nat
    requires first <= lo <= hi <= |f|
    decreases hi
  {
    if hi == lo then 0
    else Fresh(f, first, lo, hi - 1, d) + (if f[hi - 1].dir == d && !CountedBefore(f, first, hi - 1) then 1 else 0)
  }

  function FreshUsed(f: seq<FmmuConfig>, first: nat, lo: nat, hi: nat): Used
    requires first <= lo <= hi <= |f|
  {
    Used(Fresh(f, first, lo, hi, Output), Fresh(f, first, lo, hi, Input))
  }

  /** Extending a counting range by one FMMU bumps its direction's counter
   *  when its slot is new, exactly as the loop does. */
  lemma FreshUsedStep(f: seq<FmmuConfig>, first: nat, lo: nat, n: nat)
    requires first <= lo < n <= |f|
    ensures FreshUsed(f, first, lo, n)
      == if CountedBefore(f, first, n - 1) then FreshUsed(f, first, lo, n - 1)
         else Bump(FreshUsed(f, first, lo, n - 1), f[n - 1].dir)
  {
  }

  /** Position from which the FMMUs' counters go to the datagram opened at
   *  position first: the opening FMMU's own counter went to the datagram
   *  before it, except for the very first datagram. */
  function CountFrom(first: nat, isFirstDatagram: bool): nat
  {
    if isFirstDatagram then 0 else first + 1
  }

  /** Position after the last FMMU whose counter went to datagram c. */
  function CountTo(f: seq<FmmuConfig>, c: Chunk): nat
  {
    if c.at < |f| then c.at + 1 else |f|
  }

  /** Datagram c's counters are the slots first seen between its counting
   *  range's ends. */
  predicate UsedIs(f: seq<FmmuConfig>, c: Chunk, isFirstDatagram: bool)
  {
    && c.first <= CountFrom(c.first, isFirstDatagram) <= CountTo(f, c) <= |f|
    && c.used == FreshUsed(f, c.first, CountFrom(c.first, isFirstDatagram), CountTo(f, c))
  }

  /** The cut positions increase, each datagram is opened where the one
   *  before it was cut, and the open datagram was opened at the last cut. */
  predicate CutsOrdered(n: nat, s: Scan)
  {
    && (forall k :: 0 <= k < |s.chunks| ==> s.chunks[k].at < n)
    && (|s.chunks| > 0 ==> s.chunks[0].first == 0)
    && (forall k {:trigger s.chunks[k].first} :: 0 < k < |s.chunks| ==> s.chunks[k].first == s.chunks[k - 1].at < s.chunks[k].at)
    && s.first == (if s.chunks == [] then 0 else s.chunks[|s.chunks| - 1].at)
  }

  /** Cutting the open datagram keeps the cuts ordered. */
  lemma CutsAppend(n: nat, s: Scan, s': Scan)
    requires n > 0 && CutsOrdered(n - 1, s)
    requires |s'.chunks| == |s.chunks| + 1 && s'.chunks[..|s.chunks|] == s.chunks
    requires s'.chunks[|s.chunks|].first == s.first && s'.chunks[|s.chunks|].at == n - 1 == s'.first
    ensures CutsOrdered(n, s')
  {
    forall k | 0 <= k < |s.chunks|
      ensures s'.chunks[k] == s.chunks[k]
    {
      assert s'.chunks[..|s.chunks|][k] == s'.chunks[k];
    }
  }

  lemma {:induction false} ScanCuts(f: seq<FmmuConfig>, n: nat)
    requires n <= |f|
    ensures CutsOrdered(n, ScanTo(f, n))
  {
    if n > 0 {
      ScanCuts(f, n - 1);
      var s := ScanTo(f, n - 1);
      var s' := ScanTo(f, n);
      if s.size + f[n - 1].dataSize > MaxDataSize {
        assert s'.chunks[..|s.chunks|] == s.chunks;
        CutsAppend(n, s, s');
      } else {
        assert s'.chunks == s.chunks && s'.first == s.first;
      }
    }
  }

  /** The counters of the open datagram, in closed form. */
  lemma {:induction false} ScanOpenUsed(f: seq<FmmuConfig>, n: nat)
    requires n <= |f|
    ensures var s := ScanTo(f, n);
      && s.first <= CountFrom(s.first, s.chunks == []) <= n
      && s.used == FreshUsed(f, s.first, CountFrom(s.first, s.chunks == []), n)
  {
    ScanCuts(f, n);
    if n > 0 {
      ScanOpenUsed(f, n - 1);
      var s := ScanTo(f, n - 1);
      FreshUsedStep(f, s.first, CountFrom(s.first, s.chunks == []), n);
    }
  }

  /** The counters of every datagram already cut, in closed form. */
  lemma {:induction false} ScanClosedUsed(f: seq<FmmuConfig>, n: nat)
    requires n <= |f|
    ensures var cs := ScanTo(f, n).chunks;
      forall k :: 0 <= k < |cs| ==> UsedIs(f, cs[k], k == 0)
  {
    if n > 0 {
      ScanClosedUsed(f, n - 1);
      var s := ScanTo(f, n - 1);
      if s.size + f[n - 1].dataSize > MaxDataSize {
        ScanOpenUsed(f, n - 1);
        var lo := CountFrom(s.first, s.chunks == []);
        FreshUsedStep(f, s.first, lo, n);
        var cs := ScanTo(f, n).chunks;
        var c := cs[|s.chunks|];
        assert cs == s.chunks + [c];
        assert c.first == s.first && c.at == n - 1 && c.used == FreshUsed(f, s.first, lo, n);
        assert UsedIs(f, c, |s.chunks| == 0);
        forall k | 0 <= k < |cs|
          ensures UsedIs(f, cs[k], k == 0)
        {
          if k < |s.chunks| {
            assert cs[k] == s.chunks[k];
          }
        }
      }
    }
  }

  /** What datagram_used[] holds for each requested datagram: datagram k
   *  was opened where datagram k - 1 was cut, and it counts, once per slot
   *  not seen since its opening FMMU, the FMMUs after its opening FMMU (from
   *  the start, for the first datagram) up to and including the FMMU looked
   *  at when it was cut. So the FMMU that opens a datagram is counted in the
   *  one before it, and not in its own. */
  lemma LayoutUsed(f: seq<FmmuConfig>)
    ensures var L := Layout(f);
      && (|L| > 0 ==> L[0].first == 0)
      && (forall k :: 0 < k < |L| ==> L[k].first == L[k - 1].at)
      && (forall k :: 0 <= k < |L| ==> UsedIs(f, L[k], k == 0))
  {
    ScanClosedUsed(f, |f|);
    ScanOpenUsed(f, |f|);
    ScanCuts(f, |f|);
    var s := ScanTo(f, |f|);
    if s.size != 0 {
      var c := Chunk(s.offset, s.size, s.used, s.first, |f|);
      LastChunkUsed(f, s.chunks, c);
      assert Layout(f) == s.chunks + [c];
    } else {
      assert Layout(f) == s.chunks;
    }
  }

  /** The datagram left open at the end of the loop of ec_domain_finish
   *  keeps the counters of every datagram in closed form. */
  lemma LastChunkUsed(f: seq<FmmuConfig>, cs: seq<Chunk>, c: Chunk)
    requires |cs| > 0 ==> cs[0].first == 0
    requires forall k {:trigger cs[k].first} :: 0 < k < |cs| ==> cs[k].first == cs[k - 1].at
    requires forall k :: 0 <= k < |cs| ==> UsedIs(f, cs[k], k == 0)
    requires c.first == (if cs == [] then 0 else cs[|cs| - 1].at)
    requires UsedIs(f, c, cs == [])
    ensures var L := cs + [c];
      && (|L| > 0 ==> L[0].first == 0)
      && (forall k :: 0 < k < |L| ==> L[k].first == L[k - 1].at)
      && (forall k :: 0 <= k < |L| ==> UsedIs(f, L[k], k == 0))
  {
    var L := cs + [c];
    forall k | 0 < k < |L|
      ensures L[k].first == L[k - 1].at
    {
      if k < |cs| {
        assert L[k] == cs[k] && L[k - 1] == cs[k - 1];
      }
    }
    forall k | 0 <= k < |L|
      ensures UsedIs(f, L[k], k == 0)
    {
      if k < |cs| {
        assert L[k] == cs[k];
      }
    }
  }

  /** Slave configurations that have an FMMU of direction d among the first n. */
  function SlotsUpTo(f: seq<FmmuConfig>, n: nat, d: Direction): set<nat>
    requires n <= |f|
  {
    set j | 0 <= j < n && f[j].dir == d :: f[j].sc
  }

  /** Counting from the head of the list, each slave configuration is counted
   *  once per direction. */
  lemma {:induction false} FreshCountsSlots(f: seq<FmmuConfig>, n: nat, d: Direction)
    requires n <= |f|
    ensures Fresh(f, 0, 0, n, d) == |SlotsUpTo(f, n, d)|
  {
    if n > 0 {
      FreshCountsSlots(f, n - 1, d);
      var i := n - 1;
      if f[i].dir == d {
        if CountedBefore(f, 0, i) {
          var m :| 0 <= m < i && SameSlot(f[m], f[i]);
          assert f[i].sc in SlotsUpTo(f, i, d);
          assert SlotsUpTo(f, n, d) == SlotsUpTo(f, i, d);
        } else {
          forall j | 0 <= j < i && f[j].dir == d
            ensures f[j].sc != f[i].sc
          {
            assert !SameSlot(f[j], f[i]);
          }
          assert f[i].sc !in SlotsUpTo(f, i, d);
          assert SlotsUpTo(f, n, d) == SlotsUpTo(f, i, d) + {f[i].sc};
        }
      } else {
        assert SlotsUpTo(f, n, d) == SlotsUpTo(f, i, d);
      }
    }
  }

  /** While the FMMUs seen so far fit into one datagram, nothing is cut. */
  lemma {:induction false} ScanWithoutCut(f: seq<FmmuConfig>, n: nat)
    requires n <= |f| && SizeUpTo(f, n) <= MaxDataSize
    ensures ScanTo(f, n) == Scan(0, SizeUpTo(f, n), FreshUsed(f, 0, 0, n), 0, [])
  {
    if n > 0 {
      ScanWithoutCut(f, n - 1);
      FreshUsedStep(f, 0, 0, n);
    }
  }

  /** When the whole process data fit into one datagram, ec_domain_finish
   *  requests exactly one datagram (none for no data), and its counters are
   *  the number of distinct slave configurations with output FMMUs and with
   *  input FMMUs. */
  lemma SingleDatagram(f: seq<FmmuConfig>)
    requires Total(f) <= MaxDataSize
    ensures Layout(f) == if Total(f) == 0 then []
      else [Chunk(0, Total(f), Used(|SlotsUpTo(f, |f|, Output)|, |SlotsUpTo(f, |f|, Input)|), 0, |f|)]
  {
    ScanWithoutCut(f, |f|);
    FreshCountsSlots(f, |f|, Output);
    FreshCountsSlots(f, |f|, Input);
  }

  /** Two 1000-byte output FMMUs of different slave configurations: the
   *  second one opens the second datagram, but its counter goes to the first
   *  datagram, which ends up counting two slots while the second counts
   *  none. */
  lemma OpeningFmmuCountedInPreviousDatagram()
    ensures var a := FmmuConfig(1, Output, 0, 1000);
      var b := FmmuConfig(2, Output, 1000, 1000);
      Layout([a, b]) == [Chunk(0, 1000, Used(2, 0), 0, 1), Chunk(1000, 1000, Used(0, 0), 1, 2)]
  {
    var f := [FmmuConfig(1, Output, 0, 1000), FmmuConfig(2, Output, 1000, 1000)];
    assert !CountedBefore(f, 0, 0);
    assert !SameSlot(f[0], f[1]);
    assert !CountedBefore(f, 0, 1);
    assert ScanTo(f, 1) == Scan(0, 1000, Used(1, 0), 0, []);
  }

  /** Total of the FMMU sizes only depends on the FMMUs counted. */
  lemma {:induction false} SizeUpToAppend(f: seq<FmmuConfig>, x: FmmuConfig, n: nat)
    requires n <= |f|
    ensures SizeUpTo(f + [x], n) == SizeUpTo(f, n)
  {
    if n > 0 {
      SizeUpToAppend(f, x, n - 1);
      assert (f + [x])[n - 1] == f[n - 1];
    }
  }

  /** Appending an FMMU adds exactly its size to the process data. */
  lemma TotalAppend(f: seq<FmmuConfig>, x: FmmuConfig)
    ensures Total(f + [x]) == Total(f) + x.dataSize
  {
    SizeUpToAppend(f, x, |f|);
  }

  // ---------------------------------------------------------------------
  // Datagram pairs

  /** What ec_domain_finish hands to ec_domain_add_datagram_pair for one
   *  datagram: the logical address, the offset of its data in the domain
   *  memory, its size and its datagram_used[] counters. */
  datatype PairRequest = PairRequest(logicalOffset: U32, dataOffset: nat, dataSize: nat, used: Used)

  /** The request for datagram c, the domain's logical base address being
   *  base; the 32-bit address sum wraps. */
  function RequestOf(c: Chunk, base: U32): PairRequest
  {
    PairRequest(WrapU32(base + c.offset), c.offset, c.size, c.used)
  }

  /** A negative kernel error code. */
  type ErrorCode = x: int | x < 0 witness -1

  /** What happens when a pair is added: the allocation of the pair fails,
   *  ec_datagram_pair_init fails with an error code, or the pair is set up
   *  and reports the expected working counter its datagrams yield.
   *  ec_datagram_pair_init is not part of this model; its result is given by
   *  an environment function from requests to outcomes. */
  datatype PairOutcome = OutOfMemory | InitFailed(code: ErrorCode) | Initialised(expectedWorkingCounter: U16)

  /** The value ec_domain_add_datagram_pair returns for an outcome. */
  function ReturnCode(o: PairOutcome): (r: int)
    ensures r <= 0
    ensures r == 0 <==> o.Initialised?
  {
    match o
    case OutOfMemory => -(ENOMEM as int)
    case InitFailed(code) => code
    case Initialised(_) => 0
  }

  /** One entry of domain->datagram_pairs: the request it was made from and
   *  the expected working counter ec_datagram_pair_init computed. */
  datatype DatagramPair = DatagramPair(logicalOffset: U32, dataOffset: nat, dataSize: nat, used: Used, expectedWorkingCounter: U16)

  function PairOf(r: PairRequest, expectedWorkingCounter: U16): DatagramPair
  {
    DatagramPair(r.logicalOffset, r.dataOffset, r.dataSize, r.used, expectedWorkingCounter)
  }

  /** Expected working counter an outcome contributes (none on failure). */
  function EwcOf(o: PairOutcome): U16
  {
    if o.Initialised? then o.expectedWorkingCounter else 0
  }

  /** Position of the first datagram of cs, from position i on, whose pair
   *  cannot be set up (|cs| when there is none). */
  function AcceptedFrom(cs: seq<Chunk>, base: U32, env: PairRequest -> PairOutcome, i: nat): (k: nat)
    requires i <= |cs|
    decreases |cs| - i
    ensures i <= k <= |cs|
    ensures k < |cs| ==> !env(RequestOf(cs[k], base)).Initialised?
  {
    if i == |cs| || !env(RequestOf(cs[i], base)).Initialised? then i
    else AcceptedFrom(cs, base, env, i + 1)
  }

  /** Number of datagrams, from the start of cs, whose pairs are set up
   *  before the first one that fails. */
  function Accepted(cs: seq<Chunk>, base: U32, env: PairRequest -> PairOutcome): (k: nat)
    ensures k <= |cs|
    ensures k < |cs| ==> !env(RequestOf(cs[k], base)).Initialised?
  {
    AcceptedFrom(cs, base, env, 0)
  }

  lemma {:induction false} AcceptedFromBefore(cs: seq<Chunk>, base: U32, env: PairRequest -> PairOutcome, i: nat, j: nat)
    requires i <= |cs| && i <= j < AcceptedFrom(cs, base, env, i)
    decreases |cs| - i
    ensures env(RequestOf(cs[j], base)).Initialised?
  {
    if i < j {
      AcceptedFromBefore(cs, base, env, i + 1, j);
    }
  }

  /** Every datagram before the accepted count has its pair set up. */
  lemma AcceptedBefore(cs: seq<Chunk>, base: U32, env: PairRequest -> PairOutcome, j: nat)
    requires j < Accepted(cs, base, env)
    ensures env(RequestOf(cs[j], base)).Initialised?
  {
    AcceptedFromBefore(cs, base, env, 0, j);
  }

  lemma {:induction false} AcceptedFromIs(cs: seq<Chunk>, base: U32, env: PairRequest -> PairOutcome, i: nat, k: nat)
    requires i <= k <= |cs|
    requires forall j :: i <= j < k ==> env(RequestOf(cs[j], base)).Initialised?
    requires k < |cs| ==> !env(RequestOf(cs[k], base)).Initialised?
    decreases |cs| - i
    ensures AcceptedFrom(cs, base, env, i) == k
  {
    if i < k {
      AcceptedFromIs(cs, base, env, i + 1, k);
    }
  }

  /** The accepted count is determined by where the first failure is. */
  lemma AcceptedIs(cs: seq<Chunk>, base: U32, env: PairRequest -> PairOutcome, k: nat)
    requires k <= |cs|
    requires forall j :: 0 <= j < k ==> env(RequestOf(cs[j], base)).Initialised?
    requires k < |cs| ==> !env(RequestOf(cs[k], base)).Initialised?
    ensures Accepted(cs, base, env) == k
  {
    AcceptedFromIs(cs, base, env, 0, k);
  }

  /** The pairs for the first n datagrams of cs can all be set up. */
  predicate AllInitialised(cs: seq<Chunk>, base: U32, env: PairRequest -> PairOutcome, n: nat)
    requires n <= |cs|
  {
    n == 0 || (AllInitialised(cs, base, env, n - 1) && env(RequestOf(cs[n - 1], base)).Initialised?)
  }

  lemma {:induction false} AllInitialisedAt(cs: seq<Chunk>, base: U32, env: PairRequest -> PairOutcome, n: nat, j: nat)
    requires n <= |cs| && AllInitialised(cs, base, env, n) && j < n
    ensures env(RequestOf(cs[j], base)).Initialised?
  {
    if j < n - 1 {
      AllInitialisedAt(cs, base, env, n - 1, j);
    }
  }

  /** When the pairs for the first k datagrams can be set up and the next
   *  one's cannot, k of them are accepted. */
  lemma AllAccepted(cs: seq<Chunk>, base: U32, env: PairRequest -> PairOutcome, k: nat)
    requires k <= |cs| && AllInitialised(cs, base, env, k)
    requires k < |cs| ==> !env(RequestOf(cs[k], base)).Initialised?
    ensures Accepted(cs, base, env) == k
  {
    forall j | 0 <= j < k
      ensures env(RequestOf(cs[j], base)).Initialised?
    {
      AllInitialisedAt(cs, base, env, k, j);
    }
    AcceptedIs(cs, base, env, k);
  }

  /** The pairs appended for the first n datagrams of cs. */
  function PairsOf(cs: seq<Chunk>, base: U32, env: PairRequest -> PairOutcome, n: nat): (ps: seq<DatagramPair>)
    requires n <= |cs|
    ensures |ps| == n
  {
    if n == 0 then []
    else
      var r := RequestOf(cs[n - 1], base);
      PairsOf(cs, base, env, n - 1) + [PairOf(r, EwcOf(env(r)))]
  }

  /** Sum of the expected working counters of the pairs for the first n
   *  datagrams of cs. */
  function EwcTotal(cs: seq<Chunk>, base: U32, env: PairRequest -> PairOutcome, n: nat): nat
    requires n <= |cs|
  {
    if n == 0 then 0
    else EwcTotal(cs, base, env, n - 1) + EwcOf(env(RequestOf(cs[n - 1], base)))
  }

  /** The pairs for a prefix depend on that prefix only. */
  lemma {:induction false} PrefixPairs(cs: seq<Chunk>, ds: seq<Chunk>, base: U32, env: PairRequest -> PairOutcome, n: nat)
    requires n <= |cs| && n <= |ds| && cs[..n] == ds[..n]
    ensures AllInitialised(cs, base, env, n) == AllInitialised(ds, base, env, n)
    ensures PairsOf(cs, base, env, n) == PairsOf(ds, base, env, n)
    ensures EwcTotal(cs, base, env, n) == EwcTotal(ds, base, env, n)
  {
    if n > 0 {
      assert cs[n - 1] == cs[..n][n - 1] == ds[..n][n - 1] == ds[n - 1];
      assert cs[..n - 1] == cs[..n][..n - 1] == ds[..n][..n - 1] == ds[..n - 1];
      PrefixPairs(cs, ds, base, env, n - 1);
    }
  }

  /** The pair for datagram k describes datagram k: its logical address is
   *  the base address plus the bytes of the datagrams before it, its data
   *  start at that offset, and its size and counters are datagram k's. */
  lemma {:induction false} PairsOfDescribe(cs: seq<Chunk>, base: U32, env: PairRequest -> PairOutcome, n: nat, k: nat)
    requires Contiguous(cs) && k < n <= |cs|
    ensures var p := PairsOf(cs, base, env, n)[k];
      && p.logicalOffset == WrapU32(base + ChunkBytes(cs[..k]))
      && p.dataOffset == ChunkBytes(cs[..k])
      && p.dataSize == cs[k].size
      && p.used == cs[k].used
  {
    if k < n - 1 {
      PairsOfDescribe(cs, base, env, n - 1, k);
    }
  }

  /** Appending a wrapped 16-bit counter step by step is the same as
   *  wrapping the total once. */
  lemma WrapU16Add(a: int, b: int)
    ensures WrapU16(WrapU16(a) + b) == WrapU16(a + b)
  {
    var q := a / 0x1_0000;
    assert a == q * 0x1_0000 + WrapU16(a);
    assert a + b == q * 0x1_0000 + (WrapU16(a) + b);
  }

  /** The 16-bit sum of the expected working counters of the pairs ps, as
   *  ec_domain_add_datagram_pair accumulates it. */
  function EwcSum(ps: seq<DatagramPair>): U16
  {
    if ps == [] then 0 else WrapU16(EwcSum(ps[..|ps| - 1]) + ps[|ps| - 1].expectedWorkingCounter)
  }

  /** Appending the pairs for the first n datagrams of cs adds their
   *  expected working counters to the sum. */
  lemma {:induction false} EwcSumPairsOf(pairs0: seq<DatagramPair>, cs: seq<Chunk>, base: U32,
                                         env: PairRequest -> PairOutcome, n: nat)
    requires n <= |cs|
    ensures EwcSum(pairs0 + PairsOf(cs, base, env, n)) == WrapU16(EwcSum(pairs0) + EwcTotal(cs, base, env, n))
  {
    if n == 0 {
      assert pairs0 + PairsOf(cs, base, env, n) == pairs0;
    } else {
      var r := RequestOf(cs[n - 1], base);
      var e, t := EwcOf(env(r)), EwcTotal(cs, base, env, n - 1);
      var q := pairs0 + PairsOf(cs, base, env, n - 1);
      assert pairs0 + PairsOf(cs, base, env, n) == q + [PairOf(r, e)];
      EwcSumSnoc(q, PairOf(r, e));
      EwcSumPairsOf(pairs0, cs, base, env, n - 1);
      WrapU16Step(EwcSum(pairs0), t, e, EwcSum(q));
    }
  }

  /** A running sum s of a and t, wrapped to 16 bits, with e added and
   *  wrapped again, is a plus t plus e wrapped once. */
  lemma WrapU16Step(a: int, t: int, e: int, s: int)
    requires s == WrapU16(a + t)
    ensures WrapU16(s + e) == WrapU16(a + (t + e))
  {
    WrapU16Add(a + t, e);
  }

  /** Appending one pair adds its expected working counter to the sum. */
  lemma EwcSumSnoc(ps: seq<DatagramPair>, p: DatagramPair)
    ensures EwcSum(ps + [p]) == WrapU16(EwcSum(ps) + p.expectedWorkingCounter)
  {
    assert (ps + [p])[..|ps|] == ps;
  }

  /** When every pair answers the working counter it expects, the 16-bit
   *  sum of the answers is the sum of the expected working counters. */
  lemma {:induction false} AllAnsweredSum(wcs: seq<U16>, ps: seq<DatagramPair>, n: nat)
    requires n <= |wcs| == |ps|
    requires forall p :: 0 <= p < |wcs| ==> wcs[p] == ps[p].expectedWorkingCounter
    ensures WcSum(wcs, n) == EwcSum(ps[..n])
  {
    if n > 0 {
      assert ps[..n][..n - 1] == ps[..n - 1];
      AllAnsweredSum(wcs, ps, n - 1);
    }
  }

  /** FMMU fm with its logical address moved by base (32-bit wrap). */
  function Shift(fm: FmmuConfig, base: U32): FmmuConfig
  {
    fm.(logicalStartAddress := WrapU32(fm.logicalStartAddress + base))
  }

  /** The FMMU list with the first n addresses moved by base. */
  function Shifted(f: seq<FmmuConfig>, base: U32, n: nat): (g: seq<FmmuConfig>)
    ensures |g| == |f|
  {
    if n == 0 || |f| == 0 then f
    else if n > |f| then Shifted(f, base, |f|)
    else Shifted(f, base, n - 1)[n - 1 := Shift(f[n - 1], base)]
  }

  /** The first n FMMUs are moved by base, the others are untouched. */
  lemma {:induction false} ShiftedAt(f: seq<FmmuConfig>, base: U32, n: nat, j: nat)
    requires j < |f|
    ensures Shifted(f, base, n)[j] == if j < n then Shift(f[j], base) else f[j]
  {
    if n == 0 || |f| == 0 {
    } else if n > |f| {
      ShiftedAt(f, base, |f|, j);
    } else if j != n - 1 {
      ShiftedAt(f, base, n - 1, j);
    }
  }

  lemma ShiftedShape(f: seq<FmmuConfig>, base: U32, n: nat)
    ensures SameShape(f, Shifted(f, base, n))
  {
    forall j | 0 <= j < |f|
      ensures f[j].(logicalStartAddress := 0) == Shifted(f, base, n)[j].(logicalStartAddress := 0)
    {
      ShiftedAt(f, base, n, j);
    }
  }

  /** Two FMMU lists that differ at most in their logical addresses. */
  predicate SameShape(f: seq<FmmuConfig>, g: seq<FmmuConfig>)
  {
    |f| == |g| && forall j :: 0 <= j < |f| ==> f[j].(logicalStartAddress := 0) == g[j].(logicalStartAddress := 0)
  }

  lemma SameShapeCounted(f: seq<FmmuConfig>, g: seq<FmmuConfig>, first: nat, cur: nat)
    requires SameShape(f, g) && first <= cur < |f|
    ensures CountedBefore(f, first, cur) == CountedBefore(g, first, cur)
  {
    assert f[cur].sc == g[cur].sc && f[cur].dir == g[cur].dir;
    if CountedBefore(f, first, cur) {
      var j :| first <= j < cur && SameSlot(f[j], f[cur]);
      assert f[j].sc == g[j].sc && f[j].dir == g[j].dir;
      assert SameSlot(g[j], g[cur]);
    }
    if CountedBefore(g, first, cur) {
      var j :| first <= j < cur && SameSlot(g[j], g[cur]);
      assert f[j].sc == g[j].sc && f[j].dir == g[j].dir;
      assert SameSlot(f[j], f[cur]);
    }
  }

  /** The logical addresses play no part in sizes and layout. */
  lemma {:induction false} SameShapeScan(f: seq<FmmuConfig>, g: seq<FmmuConfig>, n: nat)
    requires SameShape(f, g) && n <= |f|
    ensures SizeUpTo(g, n) == SizeUpTo(f, n)
    ensures ScanTo(g, n) == ScanTo(f, n)
  {
    if n > 0 {
      SameShapeScan(f, g, n - 1);
      assert f[n - 1].dataSize == g[n - 1].dataSize && f[n - 1].dir == g[n - 1].dir;
      SameShapeCounted(f, g, ScanTo(f, n - 1).first, n - 1);
    }
  }

  /** Moving addresses keeps every FMMU's slot and size, so it changes
   *  neither the process data size nor the layout. */
  lemma ShiftedLayout(f: seq<FmmuConfig>, base: U32, m: nat)
    ensures Total(Shifted(f, base, m)) == Total(f)
    ensures Layout(Shifted(f, base, m)) == Layout(f)
  {
    ShiftedShape(f, base, m);
    SameShapeScan(f, Shifted(f, base, m), |f|);
  }

  // ---------------------------------------------------------------------
  // ecrt_domain_process: the walk of the input FMMUs over the pairs

  /** The two links of a datagram pair (ec_device_index_t). */
  datatype Device = MainLink | BackupLink

  /** One memcpy of ecrt_domain_process: size bytes at offset in the main
   *  datagram of pair number pair, taken from its backup datagram. */
  datatype Copy = Copy(pair: nat, offset: U32, size: nat)

  /** Address a lies in the main datagram of p, as the unsigned offset
   *  computed by ecrt_domain_process sees it. */
  predicate Holds(p: DatagramPair, a: U32)
  {
    WrapU32(a - p.logicalOffset) < p.dataSize
  }

  /** The inner loop of ecrt_domain_process: from pair c on, the first pair
   *  whose main datagram holds address a; None when the walk would run
   *  past the last pair. */
  function NextHolder(pairs: seq<DatagramPair>, a: U32, c: nat): (r: Option<nat>)
    decreases |pairs| - c
    ensures r.Some? ==> c <= r.value < |pairs| && Holds(pairs[r.value], a)
    ensures r.Some? ==> forall q {:trigger Holds(pairs[q], a)} :: c <= q < r.value ==> !Holds(pairs[q], a)
    ensures r.None? ==> forall q {:trigger Holds(pairs[q], a)} :: c <= q < |pairs| ==> !Holds(pairs[q], a)
  {
    if c >= |pairs| then None
    else if Holds(pairs[c], a) then Some(c)
    else NextHolder(pairs, a, c + 1)
  }

  /** The inner loop runs off the end of the pair list exactly when no
   *  pair from c on holds address a. */
  lemma {:induction false} NextHolderNone(pairs: seq<DatagramPair>, a: U32, c: nat)
    requires forall q {:trigger Holds(pairs[q], a)} :: c <= q < |pairs| ==> !Holds(pairs[q], a)
    ensures NextHolder(pairs, a, c).None?
    decreases |pairs| - c
  {
    if c < |pairs| {
      NextHolderNone(pairs, a, c + 1);
    }
  }

  /** The copy decision of ecrt_domain_process for an input FMMU of size
   *  bytes at offset o in pair p, whose working counter is wc: no copy
   *  when the data changed on the main link; otherwise a copy when they
   *  changed on the backup link or the pair's working counter is
   *  complete. */
  predicate CopiesBack(changed: set<Probe>, p: nat, o: U32, size: nat, wc: U16, ewc: U16)
  {
    Probe(p, o, size, MainLink) !in changed && (Probe(p, o, size, BackupLink) in changed || wc == ewc)
  }

  /** A question ecrt_domain_process asks ec_datagram_pair_data_changed:
   *  did the size bytes at offset in pair number pair change on device?
   *  The answers are given as the set of probes answered yes. */
  datatype Probe = Probe(pair: nat, offset: U32, size: nat, device: Device)

  /** Where the walk stands: the current pair and the copies made so far. */
  datatype Walk = Walk(cur: nat, copies: seq<Copy>)

  /** One turn of the FMMU loop of ecrt_domain_process for FMMU fm, the
   *  walk standing at w: an output FMMU is skipped; for an input FMMU the
   *  walk moves forward to the first pair holding its address and takes
   *  the copy decision there. wcs[p] is what ec_datagram_pair_process
   *  answers for pair p. None when the walk runs off the end of the pair
   *  list. */
  function WalkStep(fm: FmmuConfig, pairs: seq<DatagramPair>, wcs: seq<U16>,
                    changed: set<Probe>, w: Walk): (w': Option<Walk>)
    requires |wcs| == |pairs|
    ensures w'.Some? ==> w.cur <= w'.value.cur && w.copies <= w'.value.copies
    ensures w'.Some? && fm.dir == Input ==> w'.value.cur < |pairs|
  {
    if fm.dir != Input then Some(w)
    else match NextHolder(pairs, fm.logicalStartAddress, w.cur)
      case None => None
      case Some(p) =>
        var o := WrapU32(fm.logicalStartAddress - pairs[p].logicalOffset);
        var copied := CopiesBack(changed, p, o, fm.dataSize, wcs[p], pairs[p].expectedWorkingCounter);
        Some(Walk(p, w.copies + if copied then [Copy(p, o, fm.dataSize)] else []))
  }

  /** The walk of ecrt_domain_process over the first n FMMUs of f. */
  function WalkTo(f: seq<FmmuConfig>, pairs: seq<DatagramPair>, wcs: seq<U16>,
                  changed: set<Probe>, n: nat): (w: Option<Walk>)
    requires n <= |f| && |wcs| == |pairs|
    ensures w.Some? && |pairs| == 0 ==> w.value.cur == 0
    ensures w.Some? && |pairs| != 0 ==> w.value.cur < |pairs|
  {
    if n == 0 then Some(Walk(0, []))
    else match WalkTo(f, pairs, wcs, changed, n - 1)
      case None => None
      case Some(w) => WalkStep(f[n - 1], pairs, wcs, changed, w)
  }

  /** A walk that gets through n FMMUs gets through every m <= n. */
  lemma {:induction false} WalkPrefix(f: seq<FmmuConfig>, pairs: seq<DatagramPair>, wcs: seq<U16>,
                                      changed: set<Probe>, m: nat, n: nat)
    requires m <= n <= |f| && |wcs| == |pairs|
    requires WalkTo(f, pairs, wcs, changed, n).Some?
    ensures WalkTo(f, pairs, wcs, changed, m).Some?
    decreases n - m
  {
    if m < n {
      WalkPrefix(f, pairs, wcs, changed, m, n - 1);
    }
  }

  /** Copy c is the one the walk would make for FMMU j, an input one. */
  predicate CopyOf(f: seq<FmmuConfig>, pairs: seq<DatagramPair>, j: nat, c: Copy)
  {
    && j < |f| && c.pair < |pairs|
    && f[j].dir == Input && f[j].dataSize == c.size
    && c.offset == WrapU32(f[j].logicalStartAddress - pairs[c.pair].logicalOffset)
  }

  /** Copy c lies in the main datagram of an existing pair up to number
   *  bound, starts where one of the first n FMMUs, an input one, starts,
   *  and is one the copy decision allows. */
  ghost predicate GoodCopy(f: seq<FmmuConfig>, pairs: seq<DatagramPair>, wcs: seq<U16>,
                     changed: set<Probe>, n: nat, bound: nat, c: Copy)
    requires n <= |f| && |wcs| == |pairs|
  {
    && c.pair <= bound && c.pair < |pairs|
    && c.offset < pairs[c.pair].dataSize
    && (exists j: nat {:trigger CopyOf(f, pairs, j, c)} :: j < n && CopyOf(f, pairs, j, c))
    && CopiesBack(changed, c.pair, c.offset, c.size, wcs[c.pair], pairs[c.pair].expectedWorkingCounter)
  }

  lemma GoodCopyWeaken(f: seq<FmmuConfig>, pairs: seq<DatagramPair>, wcs: seq<U16>,
                       changed: set<Probe>, n: nat, bound: nat, n': nat, bound': nat, c: Copy)
    requires n <= n' <= |f| && bound <= bound' && |wcs| == |pairs|
    requires GoodCopy(f, pairs, wcs, changed, n, bound, c)
    ensures GoodCopy(f, pairs, wcs, changed, n', bound', c)
  {
    var j: nat :| j < n && CopyOf(f, pairs, j, c);
    assert j < n';
  }

  /** What one turn of the FMMU loop does to the copies: the earlier ones
   *  stay, and at most one joins them, for an input FMMU, in the pair the
   *  walk now stands at, inside its main datagram and allowed by the copy
   *  decision. */
  lemma WalkStepCopies(fm: FmmuConfig, pairs: seq<DatagramPair>, wcs: seq<U16>,
                       changed: set<Probe>, w: Walk)
    requires |wcs| == |pairs|
    requires WalkStep(fm, pairs, wcs, changed, w).Some?
    ensures var w' := WalkStep(fm, pairs, wcs, changed, w).value;
      && |w.copies| <= |w'.copies| <= |w.copies| + 1
      && w'.copies[..|w.copies|] == w.copies
    ensures var w' := WalkStep(fm, pairs, wcs, changed, w).value;
      |w'.copies| == |w.copies| + 1 ==>
        var c := w'.copies[|w.copies|];
        && fm.dir == Input && c.pair == w'.cur < |pairs| && c.size == fm.dataSize
        && c.offset == WrapU32(fm.logicalStartAddress - pairs[c.pair].logicalOffset)
        && c.offset < pairs[c.pair].dataSize
        && CopiesBack(changed, c.pair, c.offset, c.size, wcs[c.pair], pairs[c.pair].expectedWorkingCounter)
  {
  }

  /** WalkTo one FMMU further is one WalkStep. */
  lemma WalkToNext(f: seq<FmmuConfig>, pairs: seq<DatagramPair>, wcs: seq<U16>,
                   changed: set<Probe>, n: nat)
    requires n < |f| && |wcs| == |pairs|
    requires WalkTo(f, pairs, wcs, changed, n + 1).Some?
    ensures WalkTo(f, pairs, wcs, changed, n).Some?
    ensures WalkStep(f[n], pairs, wcs, changed, WalkTo(f, pairs, wcs, changed, n).value)
            == WalkTo(f, pairs, wcs, changed, n + 1)
  {
  }

  /** Every copy of walk w over the first n FMMUs is a GoodCopy. */
  ghost predicate AllGood(f: seq<FmmuConfig>, pairs: seq<DatagramPair>, wcs: seq<U16>,
                          changed: set<Probe>, n: nat, w: Walk)
    requires n <= |f| && |wcs| == |pairs|
  {
    forall k :: 0 <= k < |w.copies| ==> GoodCopy(f, pairs, wcs, changed, n, w.cur, w.copies[k])
  }

  /** Every copy the walk makes is a GoodCopy: it lies in the main
   *  datagram of an existing pair, no further than the walk has got,
   *  starts where an input FMMU starts, and is one the copy decision
   *  allows. */
  lemma {:induction false} WalkCopies(f: seq<FmmuConfig>, pairs: seq<DatagramPair>, wcs: seq<U16>,
                                      changed: set<Probe>, n: nat)
    requires n <= |f| && |wcs| == |pairs|
    requires WalkTo(f, pairs, wcs, changed, n).Some?
    ensures AllGood(f, pairs, wcs, changed, n, WalkTo(f, pairs, wcs, changed, n).value)
  {
    if n > 0 {
      WalkToNext(f, pairs, wcs, changed, n - 1);
      WalkCopies(f, pairs, wcs, changed, n - 1);
      CopiesStep(f, pairs, wcs, changed, n - 1, WalkTo(f, pairs, wcs, changed, n - 1).value);
    }
  }

  /** The turn on FMMU n keeps every copy a GoodCopy. */
  lemma CopiesStep(f: seq<FmmuConfig>, pairs: seq<DatagramPair>, wcs: seq<U16>,
                   changed: set<Probe>, n: nat, w0: Walk)
    requires n < |f| && |wcs| == |pairs|
    requires WalkStep(f[n], pairs, wcs, changed, w0).Some?
    requires AllGood(f, pairs, wcs, changed, n, w0)
    ensures AllGood(f, pairs, wcs, changed, n + 1, WalkStep(f[n], pairs, wcs, changed, w0).value)
  {
    var w := WalkStep(f[n], pairs, wcs, changed, w0).value;
    WalkStepCopies(f[n], pairs, wcs, changed, w0);
    forall k | 0 <= k < |w.copies|
      ensures GoodCopy(f, pairs, wcs, changed, n + 1, w.cur, w.copies[k])
    {
      if k < |w0.copies| {
        assert w.copies[k] == w.copies[..|w0.copies|][k] == w0.copies[k];
        GoodCopyWeaken(f, pairs, wcs, changed, n, w0.cur, n + 1, w.cur, w.copies[k]);
      } else {
        assert CopyOf(f, pairs, n, w.copies[k]);
      }
    }
  }

  /** One turn of the FMMU loop on an input FMMU stops at the first pair
   *  from the current one that holds its address, and appends its copy
   *  there exactly when the copy decision allows it; nothing else is
   *  copied. */
  lemma WalkStepDecides(fm: FmmuConfig, pairs: seq<DatagramPair>, wcs: seq<U16>,
                        changed: set<Probe>, w: Walk)
    requires |wcs| == |pairs| && fm.dir == Input
    requires WalkStep(fm, pairs, wcs, changed, w).Some?
    ensures NextHolder(pairs, fm.logicalStartAddress, w.cur).Some?
    ensures var w' := WalkStep(fm, pairs, wcs, changed, w).value;
      var p := w'.cur;
      var o := WrapU32(fm.logicalStartAddress - pairs[p].logicalOffset);
      && p == NextHolder(pairs, fm.logicalStartAddress, w.cur).value
      && (CopiesBack(changed, p, o, fm.dataSize, wcs[p], pairs[p].expectedWorkingCounter) ==>
            w'.copies == w.copies + [Copy(p, o, fm.dataSize)])
      && (!CopiesBack(changed, p, o, fm.dataSize, wcs[p], pairs[p].expectedWorkingCounter) ==>
            w'.copies == w.copies)
  {
  }

  /** Copies once made stay: the copies of the walk over the first m FMMUs
   *  begin the copies of the walk over the first n. */
  lemma {:induction false} WalkCopiesPrefix(f: seq<FmmuConfig>, pairs: seq<DatagramPair>, wcs: seq<U16>,
                                            changed: set<Probe>, m: nat, n: nat)
    requires m <= n <= |f| && |wcs| == |pairs|
    requires WalkTo(f, pairs, wcs, changed, n).Some?
    ensures WalkTo(f, pairs, wcs, changed, m).Some?
    ensures WalkTo(f, pairs, wcs, changed, m).value.copies <= WalkTo(f, pairs, wcs, changed, n).value.copies
    decreases n - m
  {
    if m < n {
      WalkToNext(f, pairs, wcs, changed, n - 1);
      WalkCopiesPrefix(f, pairs, wcs, changed, m, n - 1);
      var w := WalkTo(f, pairs, wcs, changed, n - 1).value;
      assert w.copies <= WalkStep(f[n - 1], pairs, wcs, changed, w).value.copies;
      PrefixTrans(WalkTo(f, pairs, wcs, changed, m).value.copies, w.copies,
                  WalkTo(f, pairs, wcs, changed, n).value.copies);
    }
  }

  /** A prefix of a prefix of c is a prefix of c. */
  lemma PrefixTrans<T>(a: seq<T>, b: seq<T>, c: seq<T>)
    requires a <= b && b <= c
    ensures a <= c
  {
  }

  /** The converse of WalkCopies: input FMMU j among the first n has its
   *  turn stop at the first pair, from where the walk stood, whose main
   *  datagram holds its address; when the copy decision allows it there,
   *  its copy is among the copies of the walk. */
  lemma {:induction false} WalkCopiesComplete(f: seq<FmmuConfig>, pairs: seq<DatagramPair>, wcs: seq<U16>,
                                              changed: set<Probe>, n: nat, j: nat)
    requires j < n <= |f| && |wcs| == |pairs| && f[j].dir == Input
    requires WalkTo(f, pairs, wcs, changed, n).Some?
    ensures WalkTo(f, pairs, wcs, changed, j).Some? && WalkTo(f, pairs, wcs, changed, j + 1).Some?
    ensures var a := f[j].logicalStartAddress;
      var p := WalkTo(f, pairs, wcs, changed, j + 1).value.cur;
      var o := WrapU32(a - pairs[p].logicalOffset);
      && NextHolder(pairs, a, WalkTo(f, pairs, wcs, changed, j).value.cur) == Some(p)
      && (CopiesBack(changed, p, o, f[j].dataSize, wcs[p], pairs[p].expectedWorkingCounter) ==>
            Copy(p, o, f[j].dataSize) in WalkTo(f, pairs, wcs, changed, n).value.copies)
  {
    WalkCopiesPrefix(f, pairs, wcs, changed, j + 1, n);
    WalkToNext(f, pairs, wcs, changed, j);
    var w0 := WalkTo(f, pairs, wcs, changed, j).value;
    var w1 := WalkTo(f, pairs, wcs, changed, j + 1).value;
    WalkStepDecides(f[j], pairs, wcs, changed, w0);
    var p := w1.cur;
    var o := WrapU32(f[j].logicalStartAddress - pairs[p].logicalOffset);
    if CopiesBack(changed, p, o, f[j].dataSize, wcs[p], pairs[p].expectedWorkingCounter) {
      LastIn(w0.copies, Copy(p, o, f[j].dataSize), WalkTo(f, pairs, wcs, changed, n).value.copies);
    }
  }

  /** An element appended to a prefix of b is in b. */
  lemma LastIn<T>(a: seq<T>, x: T, b: seq<T>)
    requires a + [x] <= b
    ensures x in b
  {
    assert b[|a|] == (a + [x])[|a|];
  }

  /** The pairs copied into never go backwards, and none lies beyond the
   *  pair the walk stands at. */
  predicate InOrder(w: Walk)
  {
    && (forall k, l :: 0 <= k < l < |w.copies| ==> w.copies[k].pair <= w.copies[l].pair)
    && (forall k :: 0 <= k < |w.copies| ==> w.copies[k].pair <= w.cur)
  }

  /** The copies of the walk are made in the order of the pairs. */
  lemma {:induction false} WalkCopiesOrdered(f: seq<FmmuConfig>, pairs: seq<DatagramPair>, wcs: seq<U16>,
                                             changed: set<Probe>, n: nat)
    requires n <= |f| && |wcs| == |pairs|
    requires WalkTo(f, pairs, wcs, changed, n).Some?
    ensures InOrder(WalkTo(f, pairs, wcs, changed, n).value)
  {
    if n > 0 {
      WalkToNext(f, pairs, wcs, changed, n - 1);
      WalkCopiesOrdered(f, pairs, wcs, changed, n - 1);
      OrderedStep(f[n - 1], pairs, wcs, changed, WalkTo(f, pairs, wcs, changed, n - 1).value);
    }
  }

  /** One turn of the walk keeps its copies in order. */
  lemma OrderedStep(fm: FmmuConfig, pairs: seq<DatagramPair>, wcs: seq<U16>,
                    changed: set<Probe>, w0: Walk)
    requires |wcs| == |pairs|
    requires WalkStep(fm, pairs, wcs, changed, w0).Some?
    requires InOrder(w0)
    ensures InOrder(WalkStep(fm, pairs, wcs, changed, w0).value)
  {
    var w := WalkStep(fm, pairs, wcs, changed, w0).value;
    WalkStepCopies(fm, pairs, wcs, changed, w0);
    forall k | 0 <= k < |w0.copies|
      ensures w.copies[k] == w0.copies[k]
    {
      assert w.copies[k] == w.copies[..|w0.copies|][k];
    }
  }

  /** The sum of the first n working counters, unbounded. */
  function SumTo(wcs: seq<U16>, n: nat): nat
    requires n <= |wcs|
  {
    if n == 0 then 0 else SumTo(wcs, n - 1) + wcs[n - 1]
  }

  /** The 16-bit running sum of the first n working counters, as
   *  working_counter_sum accumulates them. */
  function WcSum(wcs: seq<U16>, n: nat): U16
    requires n <= |wcs|
  {
    if n == 0 then 0 else WrapU16(WcSum(wcs, n - 1) + wcs[n - 1])
  }

  /** The running 16-bit sum is the true sum truncated to 16 bits. */
  lemma {:induction false} WcSumIsWrappedSum(wcs: seq<U16>, n: nat)
    requires n <= |wcs|
    ensures WcSum(wcs, n) == WrapU16(SumTo(wcs, n))
  {
    if n > 0 {
      WcSumIsWrappedSum(wcs, n - 1);
      WrapU16Add(SumTo(wcs, n - 1), wcs[n - 1]);
    }
  }

  /** How many pairs the walk has processed when it stands at pair cur:
   *  the first pair is processed before the walk starts, and each move
   *  forward processes the pair it reaches. */
  function Processed(pairs: seq<DatagramPair>, w: Walk): nat
  {
    if |pairs| == 0 then 0 else w.cur + 1
  }

  /** The working-counter sum ecrt_domain_process computes as written: the
   *  16-bit sum over the pairs the walk has processed, and no others. */
  function AsWrittenWorkingCounter(f: seq<FmmuConfig>, pairs: seq<DatagramPair>, wcs: seq<U16>,
                                   changed: set<Probe>): (wc: U16)
    requires |wcs| == |pairs|
    requires WalkTo(f, pairs, wcs, changed, |f|).Some?
    ensures |pairs| == 0 ==> wc == 0
    ensures |pairs| > 0 && WalkTo(f, pairs, wcs, changed, |f|).value.cur == |pairs| - 1 ==> wc == WcSum(wcs, |wcs|)
  {
    WcSum(wcs, Processed(pairs, WalkTo(f, pairs, wcs, changed, |f|).value))
  }

  /** A pair set-up that expects one working-counter increment per used
   *  slot, as a datagram of one direction does. */
  function SlotCount(r: PairRequest): PairOutcome
  {
    Initialised(WrapU16(r.used.outputs + r.used.inputs))
  }

  /** Two 1000-byte output FMMUs of different slave configurations, laid
   *  out by ec_domain_finish with base address 0, give two datagrams. The
   *  second FMMU is counted in the first datagram, which thus expects 2;
   *  the second datagram counts no slot and expects 0. */
  lemma {:induction false} TwoOutputsLayout()
    ensures var f := [FmmuConfig(0, Output, 0, 1000), FmmuConfig(1, Output, 1000, 1000)];
      FinishSpec(f, 0, SlotCount, [], 0)
        == FinishResult(0, f, [DatagramPair(0, 0, 1000, Used(2, 0), 2), DatagramPair(1000, 1000, 1000, Used(0, 0), 0)], 2)
  {
    var f := [FmmuConfig(0, Output, 0, 1000), FmmuConfig(1, Output, 1000, 1000)];
    var c0, c1 := Chunk(0, 1000, Used(2, 0), 0, 1), Chunk(1000, 1000, Used(0, 0), 1, 2);
    assert ScanTo(f, 1) == Scan(0, 1000, Used(1, 0), 0, []);
    assert !CountedBefore(f, 0, 1);
    assert ScanTo(f, 2) == Scan(1000, 1000, Used(0, 0), 1, [c0]);
    var L := Layout(f);
    assert L == [c0, c1];
    AcceptedIs(L, 0, SlotCount, 2);
    assert PairsOf(L, 0, SlotCount, 1) == [DatagramPair(0, 0, 1000, Used(2, 0), 2)];
    assert EwcTotal(L, 0, SlotCount, 1) == 2;
    assert EwcTotal(L, 0, SlotCount, 2) == 2;
    assert Shifted(f, 0, 1) == f;
  }

  /** As written, a pair after the last one holding an input FMMU is never
   *  processed. With the two datagrams of TwoOutputsLayout, each slave
   *  answers on the datagram that carries its data, so both answer 1: the
   *  sum over all pairs is 2, the expected working counter, but as written
   *  it is 1, and the domain never reports COMPLETE. */
  lemma TrailingPairIgnored()
    ensures var f := [FmmuConfig(0, Output, 0, 1000), FmmuConfig(1, Output, 1000, 1000)];
      var fin := FinishSpec(f, 0, SlotCount, [], 0);
      var wcs := [1, 1];
      var changed: set<Probe> := {};
      && fin.ret == 0 && fin.fmmus == f && |fin.pairs| == 2
      && fin.pairs[0].used == Used(2, 0) && fin.pairs[0].expectedWorkingCounter == 2
      && fin.pairs[1].used == Used(0, 0) && fin.pairs[1].expectedWorkingCounter == 0
      && WalkTo(f, fin.pairs, wcs, changed, |f|).Some?
      && AsWrittenWorkingCounter(f, fin.pairs, wcs, changed) == 1
      && WcSum(wcs, |wcs|) == 2 == fin.ewc
  {
    TwoOutputsLayout();
  }

  /** The inner loop of ecrt_domain_process: from pair cur on, move to
   *  the first pair holding address a, processing each pair reached and
   *  adding its working counter to the 16-bit sum; answers the pair, the
   *  offset of a in it and its working counter. */
  method Seek(pairs: seq<DatagramPair>, wcs: seq<U16>, a: U32, cur: nat, sum: U16)
    returns (cur': nat, offset: U32, pairWc: U16, sum': U16)
    requires |wcs| == |pairs| && NextHolder(pairs, a, cur).Some?
    requires sum == WcSum(wcs, cur + 1)
    ensures cur' == NextHolder(pairs, a, cur).value
    ensures offset == WrapU32(a - pairs[cur'].logicalOffset) && offset < pairs[cur'].dataSize
    ensures pairWc == wcs[cur'] && sum' == WcSum(wcs, cur' + 1)
  {
    ghost var p := NextHolder(pairs, a, cur).value;
    cur', sum' := cur, sum;
    offset := WrapU32(a - pairs[cur'].logicalOffset);
    while offset >= pairs[cur'].dataSize
      invariant cur' <= p < |pairs|
      invariant NextHolder(pairs, a, cur') == Some(p)
      invariant offset == WrapU32(a - pairs[cur'].logicalOffset)
      invariant sum' == WcSum(wcs, cur' + 1)
      decreases p - cur'
    {
      cur' := cur' + 1;
      offset := WrapU32(a - pairs[cur'].logicalOffset);
      sum' := WrapU16(sum' + wcs[cur']);
    }
    pairWc := wcs[cur'];
  }

  /** sum is the 16-bit sum of the working counters of the pairs up to
   *  pair cur, those processed so far. */
  predicate SumSoFar(pairs: seq<DatagramPair>, wcs: seq<U16>, cur: nat, sum: U16)
    requires |wcs| == |pairs|
  {
    && (|pairs| > 0 ==> cur < |pairs| && sum == WcSum(wcs, cur + 1))
    && (|pairs| == 0 ==> cur == 0 && sum == 0)
  }

  /** Before the FMMU loop of ecrt_domain_process, the first pair, if
   *  there is one, is processed. */
  method FirstSum(pairs: seq<DatagramPair>, wcs: seq<U16>) returns (sum: U16)
    requires |wcs| == |pairs|
    ensures SumSoFar(pairs, wcs, 0, sum)
  {
    sum := 0;
    if |pairs| > 0 {
      sum := WrapU16(sum + wcs[0]);
    }
  }

  /** Processing the pairs after pair cur adds their working counters to
   *  the 16-bit sum, which then covers every pair. */
  method ProcessRemaining(pairs: seq<DatagramPair>, wcs: seq<U16>, cur: nat, sum: U16) returns (sum': U16)
    requires |wcs| == |pairs| && SumSoFar(pairs, wcs, cur, sum)
    ensures sum' == WcSum(wcs, |wcs|)
  {
    var i := cur;
    sum' := sum;
    while i + 1 < |pairs|
      invariant SumSoFar(pairs, wcs, i, sum')
      decreases |pairs| - i
    {
      i := i + 1;
      sum' := WrapU16(sum' + wcs[i]);
    }
  }

  /** One turn of the FMMU loop of ecrt_domain_process, as WalkStep
   *  describes it, keeping the 16-bit sum of the working counters of the
   *  pairs processed. */
  method Visit(fm: FmmuConfig, pairs: seq<DatagramPair>, wcs: seq<U16>,
               changed: set<Probe>, cur: nat, copies: seq<Copy>, sum: U16)
    returns (cur': nat, copies': seq<Copy>, sum': U16)
    requires |wcs| == |pairs| && WalkStep(fm, pairs, wcs, changed, Walk(cur, copies)).Some?
    requires SumSoFar(pairs, wcs, cur, sum)
    ensures WalkStep(fm, pairs, wcs, changed, Walk(cur, copies)) == Some(Walk(cur', copies'))
    ensures SumSoFar(pairs, wcs, cur', sum')
  {
    cur', copies', sum' := cur, copies, sum;
    if fm.dir == Input {
      var offset, pairWc;
      cur', offset, pairWc, sum' := Seek(pairs, wcs, fm.logicalStartAddress, cur, sum);
      ghost var copied := CopiesBack(changed, cur', offset, fm.dataSize, pairWc, pairs[cur'].expectedWorkingCounter);
      if Probe(cur', offset, fm.dataSize, MainLink) in changed {
        // data changed on the main link: nothing to copy
      } else if Probe(cur', offset, fm.dataSize, BackupLink) in changed || pairWc == pairs[cur'].expectedWorkingCounter {
        copies' := copies + [Copy(cur', offset, fm.dataSize)];
      }
      assert copies' == copies + if copied then [Copy(cur', offset, fm.dataSize)] else [];
    }
  }

  /** The FMMU loop of ecrt_domain_process has been through the first j
   *  FMMUs: the walk stands at pair cur with the copies made so far, and
   *  sum is the 16-bit sum of the working counters of the pairs processed. */
  predicate WalkedTo(f: seq<FmmuConfig>, pairs: seq<DatagramPair>, wcs: seq<U16>,
                     changed: set<Probe>, j: nat, cur: nat, copies: seq<Copy>, sum: U16)
  {
    && j <= |f| && |wcs| == |pairs|
    && WalkTo(f, pairs, wcs, changed, j) == Some(Walk(cur, copies))
    && SumSoFar(pairs, wcs, cur, sum)
  }

  /** One turn of the FMMU loop of ecrt_domain_process: the walk moves
   *  from FMMU j to FMMU j + 1. */
  method Turn(f: seq<FmmuConfig>, pairs: seq<DatagramPair>, wcs: seq<U16>,
              changed: set<Probe>, j: nat, cur: nat, copies: seq<Copy>, sum: U16)
    returns (cur': nat, copies': seq<Copy>, sum': U16)
    requires j < |f| && |wcs| == |pairs| && WalkTo(f, pairs, wcs, changed, |f|).Some?
    requires WalkedTo(f, pairs, wcs, changed, j, cur, copies, sum)
    ensures WalkedTo(f, pairs, wcs, changed, j + 1, cur', copies', sum')
  {
    WalkPrefix(f, pairs, wcs, changed, j + 1, |f|);
    WalkToNext(f, pairs, wcs, changed, j);
    cur', copies', sum' := Visit(f[j], pairs, wcs, changed, cur, copies, sum);
  }

  /** The FMMU loop of ecrt_domain_process: the walk of WalkTo, with the
   *  16-bit sum of the working counters of the pairs processed so far
   *  (the first pair is processed before the loop). */
  method WalkInputs(f: seq<FmmuConfig>, pairs: seq<DatagramPair>, wcs: seq<U16>,
                    changed: set<Probe>)
    returns (cur: nat, copies: seq<Copy>, sum: U16)
    requires |wcs| == |pairs| && WalkTo(f, pairs, wcs, changed, |f|).Some?
    ensures WalkedTo(f, pairs, wcs, changed, |f|, cur, copies, sum)
  {
    cur := 0;
    sum := FirstSum(pairs, wcs);
    copies := [];
    var j := 0;
    while j < |f|
      invariant WalkedTo(f, pairs, wcs, changed, j, cur, copies, sum)
    {
      cur, copies, sum := Turn(f, pairs, wcs, changed, j, cur, copies, sum);
      j := j + 1;
    }
  }

  // ---------------------------------------------------------------------
  // The domain object

  /** The domain's process-data memory: none yet, or a buffer. */
  datatype Memory = Null | Buffer(bytes: seq<Byte>)

  /** Who owns the process-data memory (ec_origin_t). */
  datatype DataOrigin = Internal | External

  /** Working-counter classification of ecrt_domain_state (ec_wc_state_t). */
  datatype WcState = Zero | Incomplete | Complete

  /** What ecrt_domain_state reports (ec_domain_state_t). */
  datatype DomainState = DomainState(workingCounter: U16, wcState: WcState)

  /** shall_count: walks from the datagram's first FMMU up to, but not
   *  including, the current one and answers 0 when one of them has the
   *  current FMMU's slave configuration and direction, 1 otherwise. */
  method ShallCount(f: seq<FmmuConfig>, cur: nat, first: nat) returns (r: int)
    requires first <= cur < |f|
    ensures r == 0 <==> CountedBefore(f, first, cur)
    ensures r == 1 <==> !CountedBefore(f, first, cur)
  {
    var m := first;
    while m != cur
      invariant first <= m <= cur
      invariant forall j :: first <= j < m ==> !SameSlot(f[j], f[cur])
      decreases cur - m
    {
      if f[m].sc == f[cur].sc && f[m].dir == f[cur].dir {
        assert SameSlot(f[m], f[cur]);
        return 0;
      }
      m := m + 1;
    }
    return 1;
  }

  class Domain {
    var index: nat
    var fmmuConfigs: seq<FmmuConfig>
    var dataSize: nat
    var data: Memory
    var dataOrigin: DataOrigin
    var logicalBaseAddress: U32
    var datagramPairs: seq<DatagramPair>
    var workingCounter: U16
    var expectedWorkingCounter: U16
    var workingCounterChanges: U32
    var notifyJiffies: U64

    /** data_size is the total size of the FMMUs added, and the expected
     *  working counter is the 16-bit sum of the pairs' ones. */
    predicate Valid()
      reads this
    {
      dataSize == Total(fmmuConfigs) && expectedWorkingCounter == EwcSum(datagramPairs)
    }

    /** ec_domain_init: an empty domain with internal, unallocated memory
     *  and zeroed counters. */
    constructor (index: nat)
      ensures this.index == index
      ensures fmmuConfigs == [] && dataSize == 0
      ensures data == Null && dataOrigin == Internal
      ensures logicalBaseAddress == 0 && datagramPairs == []
      ensures workingCounter == 0 && expectedWorkingCounter == 0
      ensures workingCounterChanges == 0 && notifyJiffies == 0
      ensures Valid()
    {
      this.index := index;
      fmmuConfigs := [];
      dataSize := 0;
      data := Null;
      dataOrigin := Internal;
      logicalBaseAddress := 0;
      datagramPairs := [];
      workingCounter := 0;
      expectedWorkingCounter := 0;
      workingCounterChanges := 0;
      notifyJiffies := 0;
    }

    /** ec_domain_clear_data: internally allocated memory is released (not
     *  modelled) and the domain is left without memory, owning it itself. */
    method ClearData()
      modifies this`data, this`dataOrigin
      ensures data == Null && dataOrigin == Internal
    {
      data := Null;
      dataOrigin := Internal;
    }

    /** ec_domain_add_fmmu_config: data_size grows by the FMMU's size and the
     *  FMMU goes to the tail of the list. */
    method AddFmmuConfig(fmmu: FmmuConfig)
      modifies this`dataSize, this`fmmuConfigs
      ensures dataSize == old(dataSize) + fmmu.dataSize
      ensures fmmuConfigs == old(fmmuConfigs) + [fmmu]
      ensures old(Valid()) ==> Valid()
    {
      TotalAppend(fmmuConfigs, fmmu);
      dataSize := dataSize + fmmu.dataSize;
      fmmuConfigs := fmmuConfigs + [fmmu];
    }

    /** ec_domain_add_datagram_pair: on success the pair goes to the tail
     *  of the list and its expected working counter is added (16-bit) to
     *  the domain's; on failure the error is returned and nothing changes. */
    method AddDatagramPair(logicalOffset: U32, size: nat, dataOffset: nat, used: Used,
                           env: PairRequest -> PairOutcome) returns (ret: int)
      modifies this`datagramPairs, this`expectedWorkingCounter
      ensures var r := PairRequest(logicalOffset, dataOffset, size, used);
        && ret == ReturnCode(env(r))
        && (env(r).Initialised? ==>
              && datagramPairs == old(datagramPairs) + [PairOf(r, env(r).expectedWorkingCounter)]
              && expectedWorkingCounter == WrapU16(old(expectedWorkingCounter) + env(r).expectedWorkingCounter))
        && (!env(r).Initialised? ==>
              datagramPairs == old(datagramPairs) && expectedWorkingCounter == old(expectedWorkingCounter))
      ensures old(Valid()) ==> Valid()
    {
      var r := PairRequest(logicalOffset, dataOffset, size, used);
      EwcSumSnoc(datagramPairs, PairOf(r, EwcOf(env(r))));
      match env(r)
      case OutOfMemory =>
        return -(ENOMEM as int);
      case InitFailed(code) =>
        return code;
      case Initialised(ewc) =>
        expectedWorkingCounter := WrapU16(expectedWorkingCounter + ewc);
        datagramPairs := datagramPairs + [PairOf(r, ewc)];
        return 0;
    }

    /** The call of ec_domain_add_datagram_pair that ec_domain_finish makes
     *  for the datagram c once it is cut: while the pairs for the datagrams
     *  cs before it are in place, c's pair joins them, or the error is
     *  returned with nothing changed. */
    method AddChunkPair(base: U32, c: Chunk, env: PairRequest -> PairOutcome,
                        ghost pairs0: seq<DatagramPair>, ghost ewc0: U16, ghost cs: seq<Chunk>) returns (ret: int)
      requires Added(base, env, pairs0, ewc0, cs, datagramPairs, expectedWorkingCounter)
      modifies this`datagramPairs, this`expectedWorkingCounter
      ensures ret == ReturnCode(env(RequestOf(c, base)))
      ensures ret == 0 ==> Added(base, env, pairs0, ewc0, cs + [c], datagramPairs, expectedWorkingCounter)
      ensures ret != 0 ==> datagramPairs == old(datagramPairs) && expectedWorkingCounter == old(expectedWorkingCounter)
    {
      ghost var pairs1, ewc1 := datagramPairs, expectedWorkingCounter;
      ret := AddDatagramPair(WrapU32(base + c.offset), c.size, c.offset, c.used, env);
      if ret == 0 {
        AddedStep(base, env, pairs0, ewc0, cs, c, pairs1, ewc1);
      }
    }

    /** ec_domain_finish. The internal memory is allocated when there are
     *  data (allocation is the allocator's answer); then every FMMU's
     *  address is moved by the base address and the FMMUs are cut into the
     *  datagrams of Layout, one pair being added per datagram (see
     *  FinishSpec). */
    method Finish(base: U32, allocation: Memory, env: PairRequest -> PairOutcome) returns (ret: int)
      requires allocation.Buffer? ==> |allocation.bytes| == dataSize
      modifies this`logicalBaseAddress, this`data, this`fmmuConfigs, this`datagramPairs, this`expectedWorkingCounter
      ensures logicalBaseAddress == base
      ensures data == if dataSize != 0 && dataOrigin == Internal then allocation else old(data)
      ensures dataSize != 0 && dataOrigin == Internal && allocation.Null? ==>
        && ret == -(ENOMEM as int)
        && fmmuConfigs == old(fmmuConfigs)
        && datagramPairs == old(datagramPairs)
        && expectedWorkingCounter == old(expectedWorkingCounter)
      ensures !(dataSize != 0 && dataOrigin == Internal && allocation.Null?) ==>
        FinishResult(ret, fmmuConfigs, datagramPairs, expectedWorkingCounter)
          == FinishSpec(old(fmmuConfigs), base, env, old(datagramPairs), old(expectedWorkingCounter))
      ensures old(Valid()) ==> Valid()
    {
      logicalBaseAddress := base;
      if dataSize != 0 && dataOrigin == Internal {
        data := allocation;
        if allocation.Null? {
          return -(ENOMEM as int);
        }
      }
      if Valid() {
        FinishKeepsSum(fmmuConfigs, base, env, datagramPairs, expectedWorkingCounter);
      }
      ret := LayOut(base, env);
    }

    /** The loop of ec_domain_finish has looked at the first i of the FMMUs
     *  f: their addresses have been moved by base, s holds its
     *  accumulators, and a pair has been added for every datagram cut. */
    predicate LaidOutTo(f: seq<FmmuConfig>, base: U32, env: PairRequest -> PairOutcome,
                        pairs0: seq<DatagramPair>, ewc0: U16, i: nat, s: Scan)
      reads this
    {
      && i <= |f| && s == ScanTo(f, i)
      && fmmuConfigs == Shifted(f, base, i)
      && Added(base, env, pairs0, ewc0, s.chunks, datagramPairs, expectedWorkingCounter)
    }

    /** One turn of the loop of ec_domain_finish, on FMMU i: its address is
     *  moved, its slot counted (shall_count) and, when it does not fit, the
     *  open datagram is cut and its pair added. A failure ends
     *  ec_domain_finish with its outcome. */
    method LayOutStep(f: seq<FmmuConfig>, base: U32, env: PairRequest -> PairOutcome,
                      ghost pairs0: seq<DatagramPair>, ghost ewc0: U16, i: nat, s: Scan)
      returns (ret: int, s': Scan)
      requires i < |f| && LaidOutTo(f, base, env, pairs0, ewc0, i, s)
      modifies this`fmmuConfigs, this`datagramPairs, this`expectedWorkingCounter
      ensures ret == 0 ==> LaidOutTo(f, base, env, pairs0, ewc0, i + 1, s')
      ensures ret != 0 ==> FinishResult(ret, fmmuConfigs, datagramPairs, expectedWorkingCounter)
                           == FinishSpec(f, base, env, pairs0, ewc0)
      ensures ret != 0 ==> Total(fmmuConfigs) == Total(f)
    {
      ShiftStep(f, base, i);
      fmmuConfigs := fmmuConfigs[i := Shift(fmmuConfigs[i], base)];
      var count := ShallCount(f, i, s.first);
      var used := if count == 1 then Bump(s.used, f[i].dir) else s.used;
      ScanNext(f, i, s, used);
      if s.size + f[i].dataSize > MaxDataSize {
        var c := Chunk(s.offset, s.size, used, s.first, i);
        ret := AddChunkPair(base, c, env, pairs0, ewc0, s.chunks);
        if ret < 0 {
          CutFailed(f, base, env, pairs0, ewc0, s, c, i, datagramPairs, expectedWorkingCounter);
          return ret, s;
        }
        s' := Scan(s.offset + s.size, f[i].dataSize, Used(0, 0), i, s.chunks + [c]);
      } else {
        ret := 0;
        s' := Scan(s.offset, s.size + f[i].dataSize, used, s.first, s.chunks);
      }
    }

    method LayOut(base: U32, env: PairRequest -> PairOutcome) returns (ret: int)
      modifies this`fmmuConfigs, this`datagramPairs, this`expectedWorkingCounter
      ensures FinishResult(ret, fmmuConfigs, datagramPairs, expectedWorkingCounter)
          == FinishSpec(old(fmmuConfigs), base, env, old(datagramPairs), old(expectedWorkingCounter))
      ensures Total(fmmuConfigs) == Total(old(fmmuConfigs))
    {
      var f := fmmuConfigs;
      ghost var pairs0, ewc0 := datagramPairs, expectedWorkingCounter;
      // datagram_offset, datagram_size, datagram_used[], datagram_first_fmmu
      // and the datagrams requested so far
      var s := Scan(0, 0, Used(0, 0), 0, []);
      var i := 0;
      while i < |f|
        modifies this`fmmuConfigs, this`datagramPairs, this`expectedWorkingCounter
        invariant LaidOutTo(f, base, env, pairs0, ewc0, i, s)
      {
        ret, s := LayOutStep(f, base, env, pairs0, ewc0, i, s);
        if ret != 0 {
          return;
        }
        i := i + 1;
      }
      if s.size != 0 {
        var c := Chunk(s.offset, s.size, s.used, s.first, |f|);
        ret := AddChunkPair(base, c, env, pairs0, ewc0, s.chunks);
        if ret < 0 {
          LastFailed(f, base, env, pairs0, ewc0, s, c, datagramPairs, expectedWorkingCounter);
          return;
        }
        s := s.(chunks := s.chunks + [c]);
      }
      FinishSucceeded(f, base, env, pairs0, ewc0, s.chunks, datagramPairs, expectedWorkingCounter);
      ret := 0;
    }

    /** ec_domain_fmmu_count: counts the FMMU list by walking it. */
    method FmmuCount() returns (num: nat)
      ensures num == |fmmuConfigs|
    {
      num := 0;
      while num < |fmmuConfigs|
        invariant num <= |fmmuConfigs|
      {
        num := num + 1;
      }
    }

    /** ec_domain_find_fmmu: the FMMU at list position pos, or NULL when
     *  the list is shorter. */
    method FindFmmu(pos: U32) returns (r: Option<FmmuConfig>)
      ensures pos < |fmmuConfigs| ==> r == Some(fmmuConfigs[pos])
      ensures pos >= |fmmuConfigs| ==> r == None
    {
      var left := pos;
      var i := 0;
      while i < |fmmuConfigs|
        invariant i <= |fmmuConfigs|
        invariant i <= pos && left == pos - i
      {
        // skip FMMUs while the countdown from pos has not reached zero
        if left != 0 {
          left := left - 1;
          i := i + 1;
          continue;
        }
        return Some(fmmuConfigs[i]);
      }
      return None;
    }

    /** ecrt_domain_external_memory: internal memory is released and the
     *  application's memory mem becomes the domain's, owned externally. */
    method ExternalMemory(mem: Memory)
      modifies this`data, this`dataOrigin
      ensures data == mem && dataOrigin == External
    {
      ClearData();
      data := mem;
      dataOrigin := External;
    }

    /** ecrt_domain_state: the working counter, classified against the
     *  expected one. */
    function State(): (st: DomainState)
      reads this
      ensures st.workingCounter == workingCounter
      ensures st.wcState == Zero <==> workingCounter == 0
      ensures st.wcState == Complete <==> workingCounter != 0 && workingCounter == expectedWorkingCounter
      ensures st.wcState == Incomplete <==> workingCounter != 0 && workingCounter != expectedWorkingCounter
    {
      DomainState(workingCounter,
                  if workingCounter != 0 then
                    (if workingCounter == expectedWorkingCounter then Complete else Incomplete)
                  else Zero)
    }

    /** ecrt_domain_process, given the current time now (jiffies), the
     *  tick rate hz (HZ), the working counter wcs[p] that
     *  ec_datagram_pair_process answers for each pair p and the answers
     *  changed of ec_datagram_pair_data_changed. The input FMMUs are
     *  walked over the pairs (WalkTo), and the copies from the backup to
     *  the main link are returned in order. Every pair is processed
     *  (including those after the last input FMMU, see Findings), and
     *  their 16-bit sum becomes the working counter; a change is counted,
     *  and once changes are pending and more than hz ticks have passed
     *  since the last notification, the notification time is taken and
     *  the count cleared. */
    method Process(now: U64, hz: U64, wcs: seq<U16>, changed: set<Probe>)
      returns (copies: seq<Copy>)
      requires |wcs| == |datagramPairs|
      requires WalkTo(fmmuConfigs, datagramPairs, wcs, changed, |fmmuConfigs|).Some?
      modifies this`workingCounter, this`workingCounterChanges, this`notifyJiffies
      ensures copies == WalkTo(fmmuConfigs, datagramPairs, wcs, changed, |fmmuConfigs|).value.copies
      ensures workingCounter == WcSum(wcs, |wcs|)
      ensures Valid() && (forall p :: 0 <= p < |wcs| ==> wcs[p] == datagramPairs[p].expectedWorkingCounter) ==>
        workingCounter == expectedWorkingCounter && (workingCounter != 0 ==> State().wcState == Complete)
      ensures var changes := if workingCounter != old(workingCounter)
                             then WrapU32(old(workingCounterChanges) + 1) else old(workingCounterChanges);
        if changes != 0 && WrapU64(now - old(notifyJiffies)) > hz
        then notifyJiffies == now && workingCounterChanges == 0
        else notifyJiffies == old(notifyJiffies) && workingCounterChanges == changes
    {
      var cur, sum;
      cur, copies, sum := WalkInputs(fmmuConfigs, datagramPairs, wcs, changed);
      // the pairs after the last one reached are processed as well
      sum := ProcessRemaining(datagramPairs, wcs, cur, sum);
      if sum != workingCounter {
        workingCounterChanges := WrapU32(workingCounterChanges + 1);
        workingCounter := sum;
      }
      if workingCounterChanges != 0 && WrapU64(now - notifyJiffies) > hz {
        notifyJiffies := now;
        workingCounterChanges := 0;
      }
      if forall p :: 0 <= p < |wcs| ==> wcs[p] == datagramPairs[p].expectedWorkingCounter {
        AllAnsweredSum(wcs, datagramPairs, |wcs|);
        assert datagramPairs[..|wcs|] == datagramPairs;
      }
    }
  }

  /** What ec_domain_finish leaves behind once the memory is there: its
   *  return code, the FMMU list, the datagram pairs and the expected
   *  working counter. */
  datatype FinishResult = FinishResult(ret: int, fmmus: seq<FmmuConfig>, pairs: seq<DatagramPair>, ewc: U16)

  /** With L the layout of the FMMU list f and k the number of its datagrams
   *  whose pairs were set up before the first failure, the pairs for the
   *  first k datagrams of L are appended to pairs0 and their expected
   *  working counters added to ewc0. When all succeeded, 0 is returned and
   *  every FMMU's address has been moved by base once; otherwise datagram
   *  k's error is returned and only the FMMUs up to the one that caused its
   *  cut have been moved. */
  function FinishSpec(f: seq<FmmuConfig>, base: U32, env: PairRequest -> PairOutcome,
                      pairs0: seq<DatagramPair>, ewc0: U16): FinishResult
  {
    var L := Layout(f);
    var k := Accepted(L, base, env);
    FinishResult(FinishCode(L, base, env, k), Shifted(f, base, MovedUpTo(f, L, k)),
                 pairs0 + PairsOf(L, base, env, k), WrapU16(ewc0 + EwcTotal(L, base, env, k)))
  }

  /** ec_domain_finish keeps the expected working counter the 16-bit sum
   *  of the pairs' ones, whether it succeeds or stops at a failure. */
  lemma FinishKeepsSum(f: seq<FmmuConfig>, base: U32, env: PairRequest -> PairOutcome,
                       pairs0: seq<DatagramPair>, ewc0: U16)
    requires ewc0 == EwcSum(pairs0)
    ensures var r := FinishSpec(f, base, env, pairs0, ewc0); r.ewc == EwcSum(r.pairs)
  {
    var L := Layout(f);
    EwcSumPairsOf(pairs0, L, base, env, Accepted(L, base, env));
  }

  /** What ec_domain_finish returns when the pairs for the first k of the
   *  datagrams L were set up: 0 when that is all of them, otherwise the
   *  error of the next one. */
  function FinishCode(L: seq<Chunk>, base: U32, env: PairRequest -> PairOutcome, k: nat): int
  {
    if k < |L| then ReturnCode(env(RequestOf(L[k], base))) else 0
  }

  /** How many FMMUs ec_domain_finish has moved when it stops after the
   *  first k of the datagrams L: those up to the one that caused the cut of
   *  datagram k, or all of them. */
  function MovedUpTo(f: seq<FmmuConfig>, L: seq<Chunk>, k: nat): nat
  {
    if k < |L| then CountTo(f, L[k]) else |f|
  }

  /** One turn of the loop in ec_domain_finish, as ScanTo defines it. */
  lemma ScanNext(f: seq<FmmuConfig>, i: nat, s: Scan, u: Used)
    requires i < |f| && s == ScanTo(f, i)
    requires u == if CountedBefore(f, s.first, i) then s.used else Bump(s.used, f[i].dir)
    ensures s.size + f[i].dataSize > MaxDataSize ==>
      ScanTo(f, i + 1) == Scan(s.offset + s.size, f[i].dataSize, Used(0, 0), i, s.chunks + [Chunk(s.offset, s.size, u, s.first, i)])
    ensures s.size + f[i].dataSize <= MaxDataSize ==>
      ScanTo(f, i + 1) == Scan(s.offset, s.size + f[i].dataSize, u, s.first, s.chunks)
  {
  }

  lemma ShiftStep(f: seq<FmmuConfig>, base: U32, i: nat)
    requires i < |f|
    ensures Shifted(f, base, i)[i] == f[i]
    ensures Shifted(f, base, i)[i := Shift(f[i], base)] == Shifted(f, base, i + 1)
  {
    ShiftedAt(f, base, i, i);
  }

  /** The pairs for the datagrams cs have all been set up and appended to
   *  pairs0, and their expected working counters added to ewc0. */
  predicate Added(base: U32, env: PairRequest -> PairOutcome, pairs0: seq<DatagramPair>, ewc0: U16,
                  cs: seq<Chunk>, pairs: seq<DatagramPair>, ewc: U16)
  {
    && AllInitialised(cs, base, env, |cs|)
    && pairs == pairs0 + PairsOf(cs, base, env, |cs|)
    && ewc == WrapU16(ewc0 + EwcTotal(cs, base, env, |cs|))
  }

  /** Setting up the pair for one more datagram keeps Added. */
  lemma AddedStep(base: U32, env: PairRequest -> PairOutcome, pairs0: seq<DatagramPair>, ewc0: U16,
                  cs: seq<Chunk>, c: Chunk, pairs: seq<DatagramPair>, ewc: U16)
    requires Added(base, env, pairs0, ewc0, cs, pairs, ewc)
    requires env(RequestOf(c, base)).Initialised?
    ensures var r := RequestOf(c, base);
      Added(base, env, pairs0, ewc0, cs + [c], pairs + [PairOf(r, env(r).expectedWorkingCounter)],
            WrapU16(ewc + env(r).expectedWorkingCounter))
  {
    var cs' := cs + [c];
    assert cs'[..|cs|] == cs[..|cs|];
    PrefixPairs(cs', cs, base, env, |cs|);
    WrapU16Add(ewc0 + EwcTotal(cs, base, env, |cs|), env(RequestOf(c, base)).expectedWorkingCounter);
  }

  /** The datagrams cut while looking at the first n FMMUs are the first
   *  datagrams of the layout. */
  lemma CutIsLaidOut(f: seq<FmmuConfig>, n: nat)
    requires n <= |f|
    ensures ScanTo(f, n).chunks <= Layout(f)
  {
    ScanPrefix(f, n, |f|);
  }

  /** When the pair for datagram c, the layout's datagram after chunks,
   *  fails, ec_domain_finish stops with the result of a failure. */
  lemma FinishFailed(f: seq<FmmuConfig>, base: U32, env: PairRequest -> PairOutcome,
                     pairs0: seq<DatagramPair>, ewc0: U16, chunks: seq<Chunk>, c: Chunk, n: nat,
                     pairs: seq<DatagramPair>, ewc: U16)
    requires chunks + [c] <= Layout(f)
    requires CountTo(f, c) == n <= |f|
    requires Added(base, env, pairs0, ewc0, chunks, pairs, ewc)
    requires !env(RequestOf(c, base)).Initialised?
    ensures FinishSpec(f, base, env, pairs0, ewc0) == FinishResult(ReturnCode(env(RequestOf(c, base))), Shifted(f, base, n), pairs, ewc)
    ensures Total(Shifted(f, base, n)) == Total(f)
  {
    var L := Layout(f);
    var k := |chunks|;
    assert L[k] == (chunks + [c])[k] == c;
    assert L[..k] == chunks[..k];
    PrefixPairs(L, chunks, base, env, k);
    AllAccepted(L, base, env, k);
    ShiftedLayout(f, base, n);
  }

  /** Failure of the pair for the datagram cut at FMMU i. */
  lemma CutFailed(f: seq<FmmuConfig>, base: U32, env: PairRequest -> PairOutcome,
                  pairs0: seq<DatagramPair>, ewc0: U16, s: Scan, c: Chunk, i: nat,
                  pairs: seq<DatagramPair>, ewc: U16)
    requires i < |f| && ScanTo(f, i + 1).chunks == s.chunks + [c] && c.at == i
    requires Added(base, env, pairs0, ewc0, s.chunks, pairs, ewc)
    requires !env(RequestOf(c, base)).Initialised?
    ensures FinishSpec(f, base, env, pairs0, ewc0) == FinishResult(ReturnCode(env(RequestOf(c, base))), Shifted(f, base, i + 1), pairs, ewc)
    ensures Total(Shifted(f, base, i + 1)) == Total(f)
  {
    CutIsLaidOut(f, i + 1);
    FinishFailed(f, base, env, pairs0, ewc0, s.chunks, c, i + 1, pairs, ewc);
  }

  /** Failure of the pair for the datagram left open after the loop. */
  lemma LastFailed(f: seq<FmmuConfig>, base: U32, env: PairRequest -> PairOutcome,
                   pairs0: seq<DatagramPair>, ewc0: U16, s: Scan, c: Chunk,
                   pairs: seq<DatagramPair>, ewc: U16)
    requires s == ScanTo(f, |f|) && s.size != 0 && c == Chunk(s.offset, s.size, s.used, s.first, |f|)
    requires Added(base, env, pairs0, ewc0, s.chunks, pairs, ewc)
    requires !env(RequestOf(c, base)).Initialised?
    ensures FinishSpec(f, base, env, pairs0, ewc0) == FinishResult(ReturnCode(env(RequestOf(c, base))), Shifted(f, base, |f|), pairs, ewc)
    ensures Total(Shifted(f, base, |f|)) == Total(f)
  {
    FinishFailed(f, base, env, pairs0, ewc0, s.chunks, c, |f|, pairs, ewc);
  }

  /** When every pair was set up, the datagrams are the whole layout. */
  lemma FinishSucceeded(f: seq<FmmuConfig>, base: U32, env: PairRequest -> PairOutcome,
                        pairs0: seq<DatagramPair>, ewc0: U16, chunks: seq<Chunk>,
                        pairs: seq<DatagramPair>, ewc: U16)
    requires chunks == Layout(f)
    requires Added(base, env, pairs0, ewc0, chunks, pairs, ewc)
    ensures FinishSpec(f, base, env, pairs0, ewc0) == FinishResult(0, Shifted(f, base, |f|), pairs, ewc)
    ensures Total(Shifted(f, base, |f|)) == Total(f)
  {
    AllAccepted(chunks, base, env, |chunks|);
    ShiftedLayout(f, base, |f|);
  }

  /** Every FMMU's address moved by base once. */
  lemma ShiftedAll(f: seq<FmmuConfig>, base: U32)
    ensures forall j :: 0 <= j < |f| ==> Shifted(f, base, |f|)[j] == Shift(f[j], base)
  {
    forall j | 0 <= j < |f|
      ensures Shifted(f, base, |f|)[j] == Shift(f[j], base)
    {
      ShiftedAt(f, base, |f|, j);
    }
  }

  /** The pairs of all datagrams of cs, appended to pairs0. */
  lemma PairsAppended(cs: seq<Chunk>, base: U32, env: PairRequest -> PairOutcome, pairs0: seq<DatagramPair>)
    requires Contiguous(cs)
    ensures var ps := pairs0 + PairsOf(cs, base, env, |cs|);
      && |ps| == |pairs0| + |cs| && ps[..|pairs0|] == pairs0
      && (forall k :: 0 <= k < |cs| ==>
            && ps[|pairs0| + k].logicalOffset == WrapU32(base + ChunkBytes(cs[..k]))
            && ps[|pairs0| + k].dataOffset == ChunkBytes(cs[..k])
            && ps[|pairs0| + k].dataSize == cs[k].size)
  {
    var ps := pairs0 + PairsOf(cs, base, env, |cs|);
    forall k | 0 <= k < |cs|
      ensures ps[|pairs0| + k] == PairsOf(cs, base, env, |cs|)[k]
      ensures ps[|pairs0| + k].logicalOffset == WrapU32(base + ChunkBytes(cs[..k]))
      ensures ps[|pairs0| + k].dataOffset == ChunkBytes(cs[..k]) && ps[|pairs0| + k].dataSize == cs[k].size
    {
      PairsOfDescribe(cs, base, env, |cs|, k);
    }
  }

  /** When the pair of every datagram of the layout can be set up,
   *  ec_domain_finish returns 0, every FMMU's address has been moved by
   *  base exactly once, and one pair per datagram is appended: pair k
   *  starts at the base address plus the bytes of the datagrams before it,
   *  and together the pairs carry the whole process data. */
  lemma FinishSpecAllSetUp(f: seq<FmmuConfig>, base: U32, env: PairRequest -> PairOutcome,
                           pairs0: seq<DatagramPair>, ewc0: U16, L: seq<Chunk>)
    requires L == Layout(f)
    requires forall k :: 0 <= k < |L| ==> env(RequestOf(L[k], base)).Initialised?
    ensures var r := FinishSpec(f, base, env, pairs0, ewc0);
      && r.ret == 0
      && |r.fmmus| == |f| && (forall j :: 0 <= j < |f| ==> r.fmmus[j] == Shift(f[j], base))
      && |r.pairs| == |pairs0| + |L| && r.pairs[..|pairs0|] == pairs0
      && (forall k :: 0 <= k < |L| ==>
            && r.pairs[|pairs0| + k].logicalOffset == WrapU32(base + ChunkBytes(L[..k]))
            && r.pairs[|pairs0| + k].dataOffset == ChunkBytes(L[..k])
            && r.pairs[|pairs0| + k].dataSize == L[k].size)
      && ChunkBytes(L) == Total(f)
  {
    AcceptedIs(L, base, env, |L|);
    LayoutCovers(f);
    assert FinishSpec(f, base, env, pairs0, ewc0).pairs == pairs0 + PairsOf(L, base, env, |L|);
    assert FinishSpec(f, base, env, pairs0, ewc0).fmmus == Shifted(f, base, |f|);
    ShiftedAll(f, base);
    PairsAppended(L, base, env, pairs0);
  }
}
