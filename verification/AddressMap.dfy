/** The address translation of prussdrv.c: user-space addresses to bus addresses and back,
    over the memory regions that the driver maps, and the bases computed at map time. */
module AddressMap {
  import opened Wrappers

  const LIMIT := 0x1_0000_0000

  /** A 32-bit pointer, or a 32-bit bus address. */
  type Address = x: int | 0 <= x < LIMIT

  function Wrap(x: int): Address {
    x % LIMIT
  }

  /** A stretch of memory that the process sees at `virt` and the bus at `phys`. */
  datatype Region = Region(virt: Address, phys: Address, size: Address) {
    function Mirrored(): Region {
      Region(phys, virt, size)
    }

    /** Neither end of the region reaches the top of its address space. */
    predicate Fits() {
      virt + size < LIMIT && phys + size < LIMIT
    }
  }

  /** The driver's range test, with the end of the range computed in 32 bits. */
  predicate Holds(start: Address, size: Address, a: Address) {
    start <= a < Wrap(start + size)
  }

  /** The test is the intended one, except that a region reaching the top of the address
      space holds nothing at all. */
  lemma HoldsExactly(start: Address, size: Address, a: Address)
    ensures Holds(start, size, a) <==> start + size < LIMIT && start <= a < start + size
  {
    if start + size >= LIMIT {
      assert Wrap(start + size) == start + size - LIMIT < start;
    }
  }

  /** The first region that the process sees `a` in, or the number of regions. */
  function First(regions: seq<Region>, a: Address): (i: nat)
    ensures i <= |regions|
    ensures i < |regions| ==> Holds(regions[i].virt, regions[i].size, a)
    ensures forall j :: 0 <= j < i ==> !Holds(regions[j].virt, regions[j].size, a)
  {
    if regions == [] || Holds(regions[0].virt, regions[0].size, a) then 0
    else
      var i := First(regions[1..], a);
      assert forall j :: 0 < j <= i ==> regions[j] == regions[1..][j - 1];
      1 + i
  }

  predicate Mapped(regions: seq<Region>, a: Address) {
    First(regions, a) < |regions|
  }

  function Through(r: Region, a: Address): Address {
    Wrap((a - r.virt) + r.phys)
  }

  /** What an address of the process is on the bus; 0 when it is in no region. */
  function ToPhys(regions: seq<Region>, a: Address): Address {
    var i := First(regions, a);
    if i < |regions| then Through(regions[i], a) else 0
  }

  function Mirror(regions: seq<Region>): seq<Region> {
    seq(|regions|, i requires 0 <= i < |regions| => regions[i].Mirrored())
  }

  /** What a bus address is to the process: the same translation over mirrored regions. */
  function ToVirt(regions: seq<Region>, p: Address): Address {
    ToPhys(Mirror(regions), p)
  }

  lemma MirrorMirrors(regions: seq<Region>)
    ensures Mirror(Mirror(regions)) == regions
  {
  }

  lemma FirstIs(regions: seq<Region>, a: Address, i: nat)
    requires i < |regions| && Holds(regions[i].virt, regions[i].size, a)
    requires forall j :: 0 <= j < i ==> !Holds(regions[j].virt, regions[j].size, a)
    ensures First(regions, a) == i
  {
  }

  lemma WrapShifts(x: int, y: int)
    ensures Wrap(Wrap(x + y) - y) == Wrap(x)
  {
  }

  lemma WrapOfWrap(x: int, y: int)
    ensures Wrap(Wrap(x) + y) == Wrap(x + y)
  {
  }

  /** The part of a region that reaches over the top of the address space wraps around. */
  predicate Covers(start: Address, size: Address, x: Address) {
    Wrap(x - start) < size
  }

  /** The driver finds an address that a region covers exactly when the region ends below the
      top of the address space. */
  lemma FoundIfBelowTheTop(start: Address, size: Address, x: Address)
    ensures Holds(start, size, x) <==> Covers(start, size, x) && start + size < LIMIT
  {
    HoldsExactly(start, size, x);
  }

  /** The same distance between process and bus. */
  predicate SameOffset(r: Region, s: Region) {
    Wrap(r.virt - r.phys) == Wrap(s.virt - s.phys)
  }

  lemma BackThrough(r: Region, s: Region, a: Address)
    ensures Through(s.Mirrored(), Through(r, a)) == a <==> SameOffset(r, s)
  {
    var p := Through(r, a);
    assert p == Wrap(a - r.virt + r.phys);
    WrapOfWrap(a - r.virt + r.phys, s.virt - s.phys);
    assert Through(s.Mirrored(), p) == Wrap(a + ((s.virt - s.phys) - (r.virt - r.phys)));
    OffsetsEqual(a, r.virt - r.phys, s.virt - s.phys);
  }

  lemma OffsetsEqual(a: Address, d: int, e: int)
    ensures Wrap(a + (e - d)) == a <==> Wrap(d) == Wrap(e)
  {
  }

  /** Both translations of a region keep the distance from its start, in 32 bits. */
  lemma ThroughKeepsDistance(r: Region, a: Address)
    ensures Wrap(Through(r, a) - r.phys) == Wrap(a - r.virt)
    ensures Through(r.Mirrored(), Through(r, a)) == a
  {
    WrapShifts(a - r.virt, r.phys);
    BackThrough(r, r, a);
  }

  /** Translating a mapped address there and back gives it again exactly when the bus address
      is found in a region at the same distance; where it is found in none, when it is 0. */
  lemma ThereAndBack(regions: seq<Region>, a: Address)
    requires Mapped(regions, a)
    ensures var i, j := First(regions, a), First(Mirror(regions), ToPhys(regions, a));
            ToVirt(regions, ToPhys(regions, a)) == a <==>
            (if j < |regions| then SameOffset(regions[i], regions[j]) else a == 0)
  {
    var i, j := First(regions, a), First(Mirror(regions), ToPhys(regions, a));
    if j < |regions| {
      assert Mirror(regions)[j] == regions[j].Mirrored();
      BackThrough(regions[i], regions[j], a);
    }
  }

  /** No bus address belongs to two regions. */
  ghost predicate DisjointOnTheBus(regions: seq<Region>) {
    forall i, j, x: Address :: 0 <= i < j < |regions| && Covers(regions[i].phys, regions[i].size, x) ==>
      !Covers(regions[j].phys, regions[j].size, x)
  }

  /** No address of the process belongs to two regions. */
  ghost predicate DisjointInTheProcess(regions: seq<Region>) {
    DisjointOnTheBus(Mirror(regions))
  }

  predicate EndsBelowTheTop(r: Region) {
    r.phys + r.size < LIMIT
  }

  lemma HitCovers(regions: seq<Region>, a: Address)
    requires Mapped(regions, a)
    ensures var r := regions[First(regions, a)];
            Covers(r.virt, r.size, a) && Covers(r.phys, r.size, ToPhys(regions, a))
  {
    var r := regions[First(regions, a)];
    FoundIfBelowTheTop(r.virt, r.size, a);
    ThroughKeepsDistance(r, a);
  }

  lemma OnlyOneCovers(regions: seq<Region>, i: nat, j: nat, x: Address)
    requires DisjointOnTheBus(regions) && i < |regions| && j < |regions|
    requires Covers(regions[i].phys, regions[i].size, x) && Covers(regions[j].phys, regions[j].size, x)
    ensures i == j
  {
  }

  /** With disjoint bus ranges, an address in a region that ends below the top of the bus
      survives the way there and back. */
  lemma TwoWay(regions: seq<Region>, a: Address)
    requires DisjointOnTheBus(regions) && Mapped(regions, a) && EndsBelowTheTop(regions[First(regions, a)])
    ensures ToVirt(regions, ToPhys(regions, a)) == a && Mapped(Mirror(regions), ToPhys(regions, a))
  {
    var i, p, back := First(regions, a), ToPhys(regions, a), Mirror(regions);
    HitCovers(regions, a);
    FoundIfBelowTheTop(regions[i].phys, regions[i].size, p);
    assert back[i] == regions[i].Mirrored();
    var j := First(back, p);
    assert j <= i && back[j] == regions[j].Mirrored();
    FoundIfBelowTheTop(regions[j].phys, regions[j].size, p);
    OnlyOneCovers(regions, i, j, p);
    ThereAndBack(regions, a);
  }

  /** With disjoint ranges on both sides that is the exact condition: an address in a region
      that reaches the top of the bus is lost, unless it is the null pointer that stands for
      an address not found. */
  lemma TwoWayExactly(regions: seq<Region>, a: Address)
    requires DisjointOnTheBus(regions) && DisjointInTheProcess(regions) && Mapped(regions, a)
    ensures ToVirt(regions, ToPhys(regions, a)) == a <==>
            EndsBelowTheTop(regions[First(regions, a)]) || (a == 0 && !Mapped(Mirror(regions), ToPhys(regions, a)))
  {
    if EndsBelowTheTop(regions[First(regions, a)]) {
      TwoWay(regions, a);
    } else {
      LostAtTheTop(regions, a);
    }
  }

  lemma LostAtTheTop(regions: seq<Region>, a: Address)
    requires DisjointInTheProcess(regions) && Mapped(regions, a) && !EndsBelowTheTop(regions[First(regions, a)])
    ensures ToVirt(regions, ToPhys(regions, a)) == a <==> a == 0 && !Mapped(Mirror(regions), ToPhys(regions, a))
  {
    var i, p, back := First(regions, a), ToPhys(regions, a), Mirror(regions);
    var j := First(back, p);
    if j < |back| {
      assert back[j] == regions[j].Mirrored() && back[i] == regions[i].Mirrored();
      FoundIfBelowTheTop(back[j].virt, back[j].size, p);
      HitCovers(regions, a);
      HitCovers(back, p);
      MirrorMirrors(regions);
      if ToPhys(back, p) == a {
        OnlyOneCovers(back, i, j, a);
      }
    }
  }

  /** And the other way round: a bus address survives exactly when its region ends below the
      top of the process's address space, or it is 0 and lost. */
  lemma TwoWayFromTheBus(regions: seq<Region>, p: Address)
    requires DisjointOnTheBus(regions) && DisjointInTheProcess(regions) && Mapped(Mirror(regions), p)
    ensures var a := ToVirt(regions, p);
            ToPhys(regions, a) == p <==>
            EndsBelowTheTop(regions[First(Mirror(regions), p)].Mirrored()) || (p == 0 && !Mapped(regions, a))
  {
    MirrorMirrors(regions);
    TwoWayExactly(Mirror(regions), p);
  }

  /** Distinct mapped addresses stay distinct on the bus, wherever the regions end. */
  lemma TranslationIsInjective(regions: seq<Region>, a: Address, b: Address)
    requires DisjointOnTheBus(regions) && Mapped(regions, a) && Mapped(regions, b)
    requires ToPhys(regions, a) == ToPhys(regions, b)
    ensures a == b
  {
    var i, j := First(regions, a), First(regions, b);
    HitCovers(regions, a);
    HitCovers(regions, b);
    OnlyOneCovers(regions, i, j, ToPhys(regions, a));
    ThroughKeepsDistance(regions[i], a);
    ThroughKeepsDistance(regions[i], b);
  }

  /** A region of one page at the top of the bus: its addresses translate to the bus, and
      from there to nothing. */
  lemma TopPageIsLost()
    ensures var regions := [Region(0x1000, 0xFFFF_F000, 0x1000)];
            && DisjointOnTheBus(regions) && DisjointInTheProcess(regions) && Mapped(regions, 0x1000)
            && ToPhys(regions, 0x1000) == 0xFFFF_F000 && ToVirt(regions, 0xFFFF_F000) == 0
  {
    var regions := [Region(0x1000, 0xFFFF_F000, 0x1000)];
    FirstIs(regions, 0x1000, 0);
    HoldsExactly(0xFFFF_F000, 0x1000, 0xFFFF_F000);
    assert Mirror(regions) == [Region(0xFFFF_F000, 0x1000, 0x1000)];
  }

  // ---------------------------------------------------------------- the bases

  datatype Version = V1 | V2 | Unknown

  const AM18XX_INTC_REV := 0x4E825900
  const AM33XX_INTC_REV := 0x4E82A900
  const AM18XX_MMAP_SIZE := 0x7C00
  const AM33XX_MMAP_SIZE := 0x40000

  /** The parts of the subsystem; the last seven exist on the second version only. */
  datatype Part =
    | DataRam0 | DataRam1 | Intc | Control0 | Debug0 | Control1 | Debug1 | Iram0 | Iram1
    | SharedRam | Cfg | Uart | Iep | Ecap | MiiRt | Mdio

  predicate SecondVersionOnly(part: Part) {
    part.SharedRam? || part.Cfg? || part.Uart? || part.Iep? || part.Ecap? || part.MiiRt? || part.Mdio?
  }

  function Am18xxPhys(part: Part): Address
    requires !SecondVersionOnly(part)
  {
    match part
    case DataRam0 => 0x01C30000
    case DataRam1 => 0x01C32000
    case Intc => 0x01C34000
    case Control0 => 0x01C37000
    case Debug0 => 0x01C37400
    case Control1 => 0x01C37800
    case Debug1 => 0x01C37C00
    case Iram0 => 0x01C38000
    case Iram1 => 0x01C3C000
  }

  function Am33xxPhys(part: Part): Address {
    match part
    case DataRam0 => 0x4a300000
    case DataRam1 => 0x4a302000
    case Intc => 0x4a320000
    case Control0 => 0x4a322000
    case Debug0 => 0x4a322400
    case Control1 => 0x4a324000
    case Debug1 => 0x4a324400
    case Iram0 => 0x4a334000
    case Iram1 => 0x4a338000
    case SharedRam => 0x4a310000
    case Cfg => 0x4a326000
    case Uart => 0x4a328000
    case Iep => 0x4a32e000
    case Ecap => 0x4a330000
    case MiiRt => 0x4a332000
    case Mdio => 0x4a332400
  }

  /** The revision word of the interrupt controller, read where either version has it. */
  function Detect(io: Address -> Address): Version {
    if io((Am18xxPhys(Intc) - Am18xxPhys(DataRam0)) / 4) == AM18XX_INTC_REV then V1
    else if io((Am33xxPhys(Intc) - Am33xxPhys(DataRam0)) / 4) == AM33XX_INTC_REV then V2
    else Unknown
  }

  /** What the device files and the two mappings give; a file that cannot be opened is None. */
  datatype Device = Device(physBase: Option<Address>, mapSize: Option<Address>, mapping: Address,
                           io: Address -> Address,
                           extPhysBase: Option<Address>, extMapSize: Option<Address>, extMapping: Address) {
    predicate HasWindow() {
      physBase.Some? && mapSize.Some?
    }
  }

  const COMMON_PARTS: seq<Part> := [DataRam1, Intc, Control0, Debug0, Control1, Debug1, Iram0, Iram1]
  const V2_PARTS: seq<Part> := [SharedRam, Cfg, Uart, Iep, Ecap, MiiRt, Mdio]

  predicate Present(part: Part, version: Version) {
    SecondVersionOnly(part) ==> version == V2
  }

  /** The bus base of a part: a constant of the detected version, or what it was before. */
  function PhysOf(part: Part, version: Version, before: Address): Address {
    if version == V1 && !SecondVersionOnly(part) then Am18xxPhys(part)
    else if version == V2 then Am33xxPhys(part)
    else before
  }

  /** The version is the one whose revision word stands where that version has its interrupt
      controller, and the bases are those of that version. */
  ghost predicate Recognized(version: Version, dataRam0: Address, intc: Address, io: Address -> Address) {
    && (version == V1 <==> io(0x1000) == 0x4E825900)
    && (version == V2 <==> io(0x1000) != 0x4E825900 && io(0x8000) == 0x4E82A900)
    && (version == V1 ==> dataRam0 == 0x01C30000 && intc == dataRam0 + 0x4000)
    && (version == V2 ==> dataRam0 == 0x4A300000 && intc == dataRam0 + 0x20000)
  }

  lemma SelectedIsRecognized(io: Address -> Address, dataRam0: Address, intc: Address, b: Address, c: Address)
    requires dataRam0 == PhysOf(DataRam0, Detect(io), b) && intc == PhysOf(Intc, Detect(io), c)
    ensures Recognized(Detect(io), dataRam0, intc, io)
  {
  }

  /** The address of a part whose bus base is `phys`, when the mapping starts at `mapping`
      and the first data memory is at `phys0`. */
  function SubBase(mapping: Address, phys: Address, phys0: Address): Address {
    Wrap(mapping + phys - phys0)
  }

  /** The parts, first data memory aside, in the order their addresses are computed. */
  function PartsOf(second: bool): seq<Part> {
    if second then V2_PARTS else COMMON_PARTS
  }

  lemma PartsListed(part: Part, second: bool)
    ensures part in PartsOf(second) <==> part != DataRam0 && SecondVersionOnly(part) == second
  {
    if second {
      assert V2_PARTS[0].SharedRam? && V2_PARTS[1].Cfg? && V2_PARTS[2].Uart? && V2_PARTS[3].Iep?;
      assert V2_PARTS[4].Ecap? && V2_PARTS[5].MiiRt? && V2_PARTS[6].Mdio?;
    } else {
      assert COMMON_PARTS[0].DataRam1? && COMMON_PARTS[1].Intc? && COMMON_PARTS[2].Control0? && COMMON_PARTS[3].Debug0?;
      assert COMMON_PARTS[4].Control1? && COMMON_PARTS[5].Debug1? && COMMON_PARTS[6].Iram0? && COMMON_PARTS[7].Iram1?;
    }
  }

  /** The translation over three regions, as the driver's chain of tests. */
  lemma ThreeRegions(r: Region, s: Region, t: Region, a: Address)
    ensures ToPhys([r, s, t], a) == if Holds(r.virt, r.size, a) then Through(r, a)
                                    else if Holds(s.virt, s.size, a) then Through(s, a)
                                    else if Holds(t.virt, t.size, a) then Through(t, a) else 0
    ensures Mirror([r, s, t]) == [r.Mirrored(), s.Mirrored(), t.Mirrored()]
  {
    var regions := [r, s, t];
    if Holds(r.virt, r.size, a) {
      FirstIs(regions, a, 0);
    } else if Holds(s.virt, s.size, a) {
      FirstIs(regions, a, 1);
    } else if Holds(t.virt, t.size, a) {
      FirstIs(regions, a, 2);
    }
  }

  lemma BackOverThree(r: Region, s: Region, t: Region, p: Address)
    ensures ToVirt([r, s, t], p) == if Holds(r.phys, r.size, p) then Wrap(r.virt + (p - r.phys))
                                    else if Holds(s.phys, s.size, p) then Wrap(s.virt + (p - s.phys))
                                    else if Holds(t.phys, t.size, p) then Wrap(t.virt + (p - t.phys)) else 0
  {
    ThreeRegions(r, s, t, p);
    ThreeRegions(r.Mirrored(), s.Mirrored(), t.Mirrored(), p);
  }

  /** A part inside the mapped window translates to its own bus base and back; a part
      outside it is not found in the window from either side. */
  lemma SubBaseTranslates(regions: seq<Region>, phys: Address)
    requires regions != [] && regions[0].Fits() && regions[0].phys <= phys
    ensures var sub := SubBase(regions[0].virt, phys, regions[0].phys);
            if phys - regions[0].phys < regions[0].size then
              ToPhys(regions, sub) == phys && ToVirt(regions, phys) == sub
            else
              First(regions, sub) != 0 && First(Mirror(regions), phys) != 0
  {
    var r, sub := regions[0], SubBase(regions[0].virt, phys, regions[0].phys);
    HoldsExactly(r.virt, r.size, sub);
    HoldsExactly(r.phys, r.size, phys);
    assert Mirror(regions)[0] == r.Mirrored();
    if phys - r.phys < r.size {
      FirstIs(regions, sub, 0);
      FirstIs(Mirror(regions), phys, 0);
    }
  }

  const HOST_INTERRUPTS: nat := 8

  /** The first open descriptor from `i` on, or their number. */
  function FirstOpen(fd: seq<int>, i: nat): (k: nat)
    requires i <= |fd|
    ensures i <= k <= |fd| && (k < |fd| ==> fd[k] != 0) && forall j :: i <= j < k ==> fd[j] == 0
    decreases |fd| - i
  {
    if i == |fd| || fd[i] != 0 then i else FirstOpen(fd, i + 1)
  }

  function Descriptor(mmapFd: int, fd: seq<int>): int {
    var k := FirstOpen(fd, 0);
    if mmapFd != 0 then mmapFd else if k < |fd| then fd[k] else 0
  }

  /** All that the driver keeps about its mappings. */
  datatype Mapping = Mapping(version: Version, phys: map<Part, Address>, virt: map<Part, Address>, mapSize: Address,
                             l3Phys: Address, l3Virt: Address, l3Size: Address,
                             extPhys: Address, extVirt: Address, extSize: Address, physBase: Address) {
    ghost predicate Complete() {
      forall p: Part :: p in phys && p in virt
    }
  }

  class MemoryMap {
    var version: Version
    var phys: map<Part, Address>
    var virt: map<Part, Address>
    var mapSize: Address
    var l3Phys: Address
    var l3Virt: Address
    var l3Size: Address
    var extPhys: Address
    var extVirt: Address
    var extSize: Address

    /** The descriptors of the host interrupts, 0 when closed, and the one used for mapping. */
    var fd: seq<int>
    var mmapFd: int
    var prussPhysBase: Address

    ghost function State(): Mapping
      reads this
    {
      Mapping(version, phys, virt, mapSize, l3Phys, l3Virt, l3Size, extPhys, extVirt, extSize, prussPhysBase)
    }

    ghost predicate Complete()
      reads this
    {
      forall p: Part :: p in phys && p in virt
    }

    function Regions(): seq<Region>
      requires DataRam0 in virt && DataRam0 in phys
      reads this
    {
      [Region(virt[DataRam0], phys[DataRam0], mapSize),
       Region(l3Virt, l3Phys, l3Size),
       Region(extVirt, extPhys, extSize)]
    }

    /** The bases of every part that the version has are those computed at map time. */
    ghost predicate BasesComputed()
      requires Complete()
      reads this
    {
      forall p: Part :: p != DataRam0 && Present(p, version) ==>
          virt[p] == SubBase(virt[DataRam0], phys[p], phys[DataRam0])
    }

    /** All zero, as the driver's state is after its initialisation. */
    constructor Init()
      ensures Complete() && version == Unknown && mapSize == 0
      ensures forall p: Part :: phys[p] == 0 && virt[p] == 0
      ensures l3Phys == 0 && l3Virt == 0 && l3Size == 0 && extPhys == 0 && extVirt == 0 && extSize == 0
      ensures fd == seq(HOST_INTERRUPTS, _ => 0) && mmapFd == 0 && prussPhysBase == 0
    {
      version := Unknown;
      fd, mmapFd, prussPhysBase := seq(HOST_INTERRUPTS, _ => 0), 0, 0;
      var all := [DataRam0] + PartsOf(false) + PartsOf(true);
      phys, virt := map p | p in all :: 0, map p | p in all :: 0;
      mapSize, l3Phys, l3Virt, l3Size, extPhys, extVirt, extSize := 0, 0, 0, 0, 0, 0, 0;
      forall p: Part
        ensures p in all
      {
        PartsListed(p, false);
        PartsListed(p, true);
      }
    }

    /** Computes the address of every part of one kind from its bus base. */
    method ComputeBases(second: bool)
      requires Complete()
      modifies `virt
      ensures Complete()
      ensures forall p: Part :: virt[p] == if p != DataRam0 && SecondVersionOnly(p) == second
                                           then SubBase(old(virt)[DataRam0], phys[p], phys[DataRam0]) else old(virt)[p]
    {
      var i, parts := 0, PartsOf(second);
      PartsListed(DataRam0, second);
      while i < |parts|
        invariant 0 <= i <= |parts| && Complete()
        invariant forall p: Part ::
            virt[p] == if p in parts[..i] then SubBase(old(virt)[DataRam0], phys[p], phys[DataRam0])
                                               else old(virt)[p]
      {
        assert parts[..i + 1] == parts[..i] + [parts[i]];
        assert DataRam0 !in parts[..i];
        virt := virt[parts[i] := SubBase(virt[DataRam0], phys[parts[i]], phys[DataRam0])];
        i := i + 1;
      }
      assert parts[..i] == parts;
      forall p: Part
        ensures p in parts <==> p != DataRam0 && SecondVersionOnly(p) == second
      {
        PartsListed(p, second);
      }
    }

    /** The mapped window starts at `mapping`: the version detected in it selects the bus
        bases, and these the addresses of the parts. */
    method MapWindow(mapping: Address, size: Address, io: Address -> Address)
      requires Complete()
      modifies `mapSize, `virt, `version, `phys
      ensures Complete() && BasesComputed() && version == Detect(io) && mapSize == size && virt[DataRam0] == mapping
      ensures PhysSelected(old(phys)) && AbsentKept(old(virt))
      ensures Recognized(version, phys[DataRam0], phys[Intc], io)
    {
      mapSize := size;
      virt := virt[DataRam0 := mapping];
      version := Detect(io);
      SelectPhys();
      SelectedIsRecognized(io, phys[DataRam0], phys[Intc], old(phys)[DataRam0], old(phys)[Intc]);
      MapParts();
    }

    ghost predicate PhysSelected(before: map<Part, Address>)
      requires Complete() && forall p: Part :: p in before
      reads this
    {
      forall p: Part :: phys[p] == PhysOf(p, version, before[p])
    }

    /** The addresses of parts that the version does not have are left alone. */
    ghost predicate AbsentKept(before: map<Part, Address>)
      requires Complete() && forall p: Part :: p in before
      reads this
    {
      forall p: Part :: !Present(p, version) ==> virt[p] == before[p]
    }

    method SelectPhys()
      requires Complete()
      modifies `phys
      ensures Complete() && PhysSelected(old(phys))
    {
      phys := map p: Part | p in phys :: PhysOf(p, version, phys[p]);
    }

    /** Takes the descriptor to map with from the first host interrupt that is open, unless
        there is one already. */
    method ChooseDescriptor()
      modifies `mmapFd
      ensures mmapFd == Descriptor(old(mmapFd), fd)
    {
      if mmapFd == 0 {
        var i := 0;
        while i < |fd| && fd[i] == 0
          invariant 0 <= i <= |fd| && FirstOpen(fd, 0) == FirstOpen(fd, i)
        {
          i := i + 1;
        }
        if i < |fd| {
          mmapFd := fd[i];
        }
      }
    }

    /** Maps the device through the descriptor of an open host interrupt, and fails when no
        interrupt is open. */
    method MemmapInit(device: Device) returns (status: int)
      requires Complete()
      modifies this
      ensures Complete() && fd == old(fd) && mmapFd == Descriptor(old(mmapFd), fd)
      ensures mmapFd != 0 ==> DeviceMapped(old(State()), device, status)
      ensures mmapFd == 0 ==> status == -1 && State() == old(State())
    {
      ChooseDescriptor();
      if mmapFd == 0 {
        return -1;
      }
      status := MapDevice(device);
    }

    /** Reads the device files and maps the window and the external memory. It fails when a file
        cannot be opened, before the window is mapped for the first two files and after that
        for the last two. */
    method MapDevice(device: Device) returns (status: int)
      requires Complete()
      modifies this
      ensures Complete() && fd == old(fd) && mmapFd == old(mmapFd)
      ensures DeviceMapped(old(State()), device, status)
    {
      var mapped := OpenWindow(device);
      if !mapped {
        return -1;
      }
      status := MapExternal(device);
    }

    method OpenWindow(device: Device) returns (mapped: bool)
      requires Complete()
      modifies `prussPhysBase, `mapSize, `virt, `version, `phys
      ensures Complete() && mapped == device.HasWindow() && WindowMapped(old(State()), device)
    {
      if device.physBase.None? {
        return false;
      }
      prussPhysBase := device.physBase.value;
      if device.mapSize.None? {
        return false;
      }
      MapWindow(device.mapping, device.mapSize.value, device.io);
      return true;
    }

    method MapExternal(device: Device) returns (status: int)
      modifies `extPhys, `extSize, `extVirt
      ensures status == if device.extPhysBase.Some? && device.extMapSize.Some? then 0 else -1
      ensures extPhys == if device.extPhysBase.Some? then device.extPhysBase.value else old(extPhys)
      ensures extSize == if status == 0 then device.extMapSize.value else old(extSize)
      ensures extVirt == if status == 0 then device.extMapping else old(extVirt)
    {
      if device.extPhysBase.None? {
        return -1;
      }
      extPhys := device.extPhysBase.value;
      if device.extMapSize.None? {
        return -1;
      }
      extSize := device.extMapSize.value;
      extVirt := device.extMapping;
      return 0;
    }

    /** What mapping the device leaves, from `before` on. */
    ghost predicate DeviceMapped(before: Mapping, device: Device, status: int)
      requires Complete() && before.Complete()
      reads this
    {
      && l3Phys == before.l3Phys && l3Virt == before.l3Virt && l3Size == before.l3Size
      && WindowMapped(before, device) && ExternalMapped(before, device, status)
    }

    ghost predicate WindowMapped(before: Mapping, device: Device)
      requires Complete() && before.Complete()
      reads this
    {
      && prussPhysBase == (if device.physBase.Some? then device.physBase.value else before.physBase)
      && if device.HasWindow() then
           && version == Detect(device.io) && mapSize == device.mapSize.value && virt[DataRam0] == device.mapping
           && BasesComputed() && PhysSelected(before.phys) && AbsentKept(before.virt)
           && Recognized(version, phys[DataRam0], phys[Intc], device.io)
         else version == before.version && mapSize == before.mapSize && phys == before.phys && virt == before.virt
    }

    ghost predicate ExternalMapped(before: Mapping, device: Device, status: int)
      reads this
    {
      var base := device.HasWindow() && device.extPhysBase.Some?;
      && status == (if base && device.extMapSize.Some? then 0 else -1)
      && extPhys == (if base then device.extPhysBase.value else before.extPhys)
      && extSize == (if base && device.extMapSize.Some? then device.extMapSize.value else before.extSize)
      && extVirt == (if base && device.extMapSize.Some? then device.extMapping else before.extVirt)
    }

    method MapParts()
      requires Complete()
      modifies `virt
      ensures Complete() && BasesComputed() && virt[DataRam0] == old(virt)[DataRam0]
      ensures AbsentKept(old(virt))
    {
      ComputeBases(false);
      if version == V2 {
        ComputeBases(true);
      }
    }

    method GetPhysAddr(address: Address) returns (retaddr: Address)
      requires Complete()
      ensures retaddr == ToPhys(Regions(), address)
    {
      ThreeRegions(Regions()[0], Regions()[1], Regions()[2], address);
      retaddr := 0;
      if virt[DataRam0] <= address && address < Wrap(virt[DataRam0] + mapSize) {
        retaddr := Wrap(address - virt[DataRam0] + phys[DataRam0]);
      } else if l3Virt <= address && address < Wrap(l3Virt + l3Size) {
        retaddr := Wrap(address - l3Virt + l3Phys);
      } else if extVirt <= address && address < Wrap(extVirt + extSize) {
        retaddr := Wrap(address - extVirt + extPhys);
      }
    }

    method GetVirtAddr(phyaddr: Address) returns (address: Address)
      requires Complete()
      ensures address == ToVirt(Regions(), phyaddr)
    {
      BackOverThree(Regions()[0], Regions()[1], Regions()[2], phyaddr);
      address := 0;
      if phys[DataRam0] <= phyaddr && phyaddr < Wrap(phys[DataRam0] + mapSize) {
        address := Wrap(virt[DataRam0] + (phyaddr - phys[DataRam0]));
      } else if l3Phys <= phyaddr && phyaddr < Wrap(l3Phys + l3Size) {
        address := Wrap(l3Virt + (phyaddr - l3Phys));
      } else if extPhys <= phyaddr && phyaddr < Wrap(extPhys + extSize) {
        address := Wrap(extVirt + (phyaddr - extPhys));
      }
    }
  }

  /** Another region holds the address computed for a part. */
  ghost predicate Elsewhere(m: MemoryMap, part: Part)
    requires m.Complete()
    reads m
  {
    Holds(m.l3Virt, m.l3Size, m.virt[part]) || Holds(m.extVirt, m.extSize, m.virt[part])
  }

  /** The mapped window reaches the part. */
  ghost predicate Reached(m: MemoryMap, part: Part)
    requires m.Complete()
    reads m
  {
    m.phys[part] - m.phys[DataRam0] < m.mapSize
  }

  /** A part that the mapped window reaches translates to its own bus base and back; any other
      is not found at all, unless another region happens to hold its computed address. */
  lemma PartTranslates(m: MemoryMap, part: Part)
    requires m.Complete() && m.BasesComputed() && Present(part, m.version) && m.Regions()[0].Fits()
    requires m.phys[DataRam0] <= m.phys[part]
    ensures Reached(m, part) ==>
              ToPhys(m.Regions(), m.virt[part]) == m.phys[part] && ToVirt(m.Regions(), m.phys[part]) == m.virt[part]
    ensures !Reached(m, part) && !Elsewhere(m, part) ==> ToPhys(m.Regions(), m.virt[part]) == 0
  {
    var regions := m.Regions();
    assert m.virt[part] == SubBase(regions[0].virt, m.phys[part], regions[0].phys);
    SubBaseTranslates(regions, m.phys[part]);
    ThreeRegions(regions[0], regions[1], regions[2], m.virt[part]);
  }

  lemma Am33xxWindow(part: Part)
    ensures Am33xxPhys(DataRam0) <= Am33xxPhys(part) < Am33xxPhys(DataRam0) + AM33XX_MMAP_SIZE
  {
  }

  lemma Am18xxWindow(part: Part)
    requires !SecondVersionOnly(part)
    ensures Am18xxPhys(DataRam0) <= Am18xxPhys(part)
    ensures Am18xxPhys(part) < Am18xxPhys(DataRam0) + AM18XX_MMAP_SIZE <==>
            part != Debug1 && part != Iram0 && part != Iram1
  {
  }

  /** On the second version a part translates there and back when the window reaches it, and
      only then; a window of the size that the header gives reaches every part. */
  lemma Am33xxBasesTranslate(m: MemoryMap, part: Part)
    requires m.Complete() && m.version == V2 && m.BasesComputed() && m.Regions()[0].Fits()
    requires m.phys[part] == Am33xxPhys(part) && m.phys[DataRam0] == Am33xxPhys(DataRam0)
    ensures Reached(m, part) ==>
              ToPhys(m.Regions(), m.virt[part]) == m.phys[part] && ToVirt(m.Regions(), m.phys[part]) == m.virt[part]
    ensures !Elsewhere(m, part) ==> (ToPhys(m.Regions(), m.virt[part]) == m.phys[part] <==> Reached(m, part))
    ensures m.mapSize >= AM33XX_MMAP_SIZE ==> Reached(m, part)
  {
    Am33xxWindow(part);
    PartTranslates(m, part);
  }

  /** So it is on the first version, but there a window of the size that the header gives ends
      before exactly the second debug block and the program memories. */
  lemma Am18xxBasesTranslate(m: MemoryMap, part: Part)
    requires m.Complete() && m.version == V1 && m.BasesComputed() && m.Regions()[0].Fits()
    requires !SecondVersionOnly(part)
    requires m.phys[part] == Am18xxPhys(part) && m.phys[DataRam0] == Am18xxPhys(DataRam0)
    ensures Reached(m, part) ==>
              ToPhys(m.Regions(), m.virt[part]) == m.phys[part] && ToVirt(m.Regions(), m.phys[part]) == m.virt[part]
    ensures !Elsewhere(m, part) ==> (ToPhys(m.Regions(), m.virt[part]) == m.phys[part] <==> Reached(m, part))
    ensures m.mapSize == AM18XX_MMAP_SIZE ==>
              (Reached(m, part) <==> part != Debug1 && part != Iram0 && part != Iram1)
  {
    Am18xxWindow(part);
    PartTranslates(m, part);
  }
}
