/** The DSI video-mode register programmer, `DsiVideoConfig::apply`, a port of ST's
    `HAL_DSI_ConfigVideoMode`.

    `Apply` is the straight-line sequence of read-modify-write step pairs on the DSIHOST
    registers, one helper method per pair. For each register it touches, its contract names the composition of that
    register's steps in source order; the lemmas below say what those compositions leave in
    each register field. */
module VideoConfig {
  import opened RegisterBits
  import opened Dsihost

  /** A `DsiVideoConfig`. Each value is already shifted to its bit position except
      `lpLargestPacketSize`, which `Apply` shifts by 16. The configuration is never changed
      once built, so every field is a `const`. */
  class VideoModeConfig {
    const virtualChannelId: bv32
    const colorCoding: bv32
    const looselyPacked: bv32
    const mode: bv32
    const packetSize: bv32
    const numberOfChunks: bv32
    const nullPacketSize: bv32
    const hsPolarity: bv32
    const vsPolarity: bv32
    const dePolarity: bv32
    const horizontalSyncActive: bv32
    const horizontalBackPorch: bv32
    const horizontalLine: bv32
    const verticalSyncActive: bv32
    const verticalBackPorch: bv32
    const verticalFrontPorch: bv32
    const verticalActive: bv32
    const lpCommandEnable: bv32
    const lpLargestPacketSize: bv32
    const lpVactLargestPacketSize: bv32
    const lpHorizontalFrontPorchEnable: bv32
    const lpHorizontalBackPorchEnable: bv32
    const lpVerticalActiveEnable: bv32
    const lpVerticalFrontPorchEnable: bv32
    const lpVerticalBackPorchEnable: bv32
    const lpVerticalSyncActiveEnable: bv32
    const frameBtaAcknowledgeEnable: bv32
  }

  /** The `assert!` at the head of `apply`: in 18-bit colour coding the loosely packed
      setting must be the "enabled" constant. */
  predicate Precondition(k: DsiConsts, c: VideoModeConfig)
  {
    c.colorCoding == k.rgb666 ==> c.looselyPacked == k.looselyPackedEnable
  }

  /** MCR: clear CMDM, which selects video mode. */
  function McrConfigured(k: DsiConsts, c: VideoModeConfig, x: bv32): bv32
  {
    Clear(k.mcrCmdm).Apply(x)
  }

  /** WCFGR: clear DSIM, later set COLMUX to the colour coding shifted to bit 1. */
  function WcfgrConfigured(k: DsiConsts, c: VideoModeConfig, x: bv32): bv32
  {
    Field(k.wcfgrColmux, c.colorCoding << 1).Apply(Clear(k.wcfgrDsim).Apply(x))
  }

  /** VMCR is written in nine places: VMT first, and the rest after the timing registers. */
  function VmcrConfigured(k: DsiConsts, c: VideoModeConfig, x: bv32): bv32
  {
    VmcrLowPower(k, c, Field(k.vmcrVmt, c.mode).Apply(x))
  }

  /** The later VMCR writes, in this order: LPCE, the six low-power transition enables,
      FBTAAE. */
  function VmcrLowPower(k: DsiConsts, c: VideoModeConfig, x: bv32): bv32
  {
    Field(k.vmcrFbtaae, c.frameBtaAcknowledgeEnable).Apply(
      Field(k.vmcrLpvsae, c.lpVerticalSyncActiveEnable).Apply(
      Field(k.vmcrLpvbpe, c.lpVerticalBackPorchEnable).Apply(
      Field(k.vmcrLpvfpe, c.lpVerticalFrontPorchEnable).Apply(
      Field(k.vmcrLpvae, c.lpVerticalActiveEnable).Apply(
      Field(k.vmcrLphbpe, c.lpHorizontalBackPorchEnable).Apply(
      Field(k.vmcrLphfpe, c.lpHorizontalFrontPorchEnable).Apply(
      Field(k.vmcrLpce, c.lpCommandEnable).Apply(
      x))))))))
  }

  /** LPCR: the three polarity bits as one step. */
  function LpcrConfigured(k: DsiConsts, c: VideoModeConfig, x: bv32): bv32
  {
    Field(k.lpcrDep | k.lpcrVsp | k.lpcrHsp, c.dePolarity | c.vsPolarity | c.hsPolarity).Apply(x)
  }

  /** LCOLCR: COLC first; only in 18-bit colour coding is LPE then cleared and the loosely
      packed setting OR-ed in. */
  function LcolcrConfigured(k: DsiConsts, c: VideoModeConfig, x: bv32): bv32
  {
    var colc := Field(k.lcolcrColc, c.colorCoding).Apply(x);
    if c.colorCoding == k.rgb666 then Field(k.lcolcrLpe, c.looselyPacked).Apply(colc) else colc
  }

  /** LPMCR: LPSIZE (shifted to bit 16), then VLPSIZE. */
  function LpmcrConfigured(k: DsiConsts, c: VideoModeConfig, x: bv32): bv32
  {
    Field(k.lpmcrVlpsize, c.lpVactLargestPacketSize).Apply(
      Field(k.lpmcrLpsize, c.lpLargestPacketSize << 16).Apply(x))
  }

  /** The VMCR step pairs in source order: VMT, LPCE, the six low-power transition enables,
      FBTAAE. */
  function VmcrWrites(k: DsiConsts, c: VideoModeConfig): seq<FieldWrite>
  {
    [FieldWrite(k.vmcrVmt, c.mode),
     FieldWrite(k.vmcrLpce, c.lpCommandEnable),
     FieldWrite(k.vmcrLphfpe, c.lpHorizontalFrontPorchEnable),
     FieldWrite(k.vmcrLphbpe, c.lpHorizontalBackPorchEnable),
     FieldWrite(k.vmcrLpvae, c.lpVerticalActiveEnable),
     FieldWrite(k.vmcrLpvfpe, c.lpVerticalFrontPorchEnable),
     FieldWrite(k.vmcrLpvbpe, c.lpVerticalBackPorchEnable),
     FieldWrite(k.vmcrLpvsae, c.lpVerticalSyncActiveEnable),
     FieldWrite(k.vmcrFbtaae, c.frameBtaAcknowledgeEnable)]
  }

  /** The LPMCR step pairs in source order: LPSIZE (its value shifted to bit 16), then
      VLPSIZE. */
  function LpmcrWrites(k: DsiConsts, c: VideoModeConfig): seq<FieldWrite>
  {
    [FieldWrite(k.lpmcrLpsize, c.lpLargestPacketSize << 16),
     FieldWrite(k.lpmcrVlpsize, c.lpVactLargestPacketSize)]
  }

  /** VMCR ends as the ordered run of its nine step pairs, although `apply` interleaves
      them with the writes of other registers. */
  lemma VmcrIsOrderedChain(k: DsiConsts, c: VideoModeConfig, x: bv32)
    ensures VmcrConfigured(k, c, x) == Run(VmcrWrites(k, c), x)
  {
    var ws := VmcrWrites(k, c);
    var y1 := Field(k.vmcrVmt, c.mode).Apply(x);
    var y2 := Field(k.vmcrLpce, c.lpCommandEnable).Apply(y1);
    var y3 := Field(k.vmcrLphfpe, c.lpHorizontalFrontPorchEnable).Apply(y2);
    var y4 := Field(k.vmcrLphbpe, c.lpHorizontalBackPorchEnable).Apply(y3);
    assert ws[0..] == ws;
    RunFrom(ws, 0, x);
    RunFrom(ws, 1, y1);
    RunFrom(ws, 2, y2);
    RunFrom(ws, 3, y3);
    VmcrLastFive(k, c, y4);
  }

  /** The last five VMCR step pairs, LPVAE to FBTAAE. */
  lemma VmcrLastFive(k: DsiConsts, c: VideoModeConfig, y: bv32)
    ensures Run(VmcrWrites(k, c)[4..], y)
         == Field(k.vmcrFbtaae, c.frameBtaAcknowledgeEnable).Apply(
              Field(k.vmcrLpvsae, c.lpVerticalSyncActiveEnable).Apply(
              Field(k.vmcrLpvbpe, c.lpVerticalBackPorchEnable).Apply(
              Field(k.vmcrLpvfpe, c.lpVerticalFrontPorchEnable).Apply(
              Field(k.vmcrLpvae, c.lpVerticalActiveEnable).Apply(y)))))
  {
    var ws := VmcrWrites(k, c);
    var y5 := Field(k.vmcrLpvae, c.lpVerticalActiveEnable).Apply(y);
    var y6 := Field(k.vmcrLpvfpe, c.lpVerticalFrontPorchEnable).Apply(y5);
    var y7 := Field(k.vmcrLpvbpe, c.lpVerticalBackPorchEnable).Apply(y6);
    RunFrom(ws, 4, y);
    RunFrom(ws, 5, y5);
    RunFrom(ws, 6, y6);
    VmcrLastTwo(k, c, y7);
  }

  /** The last two VMCR step pairs, LPVSAE and FBTAAE. */
  lemma VmcrLastTwo(k: DsiConsts, c: VideoModeConfig, y: bv32)
    ensures Run(VmcrWrites(k, c)[7..], y)
         == Field(k.vmcrFbtaae, c.frameBtaAcknowledgeEnable).Apply(
              Field(k.vmcrLpvsae, c.lpVerticalSyncActiveEnable).Apply(y))
  {
    var ws := VmcrWrites(k, c);
    RunFrom(ws, 7, y);
    RunFrom(ws, 8, Field(k.vmcrLpvsae, c.lpVerticalSyncActiveEnable).Apply(y));
    assert ws[9..] == [];
  }

  /** LPMCR ends as the ordered run of its two step pairs. */
  lemma LpmcrIsOrderedChain(k: DsiConsts, c: VideoModeConfig, x: bv32)
    ensures LpmcrConfigured(k, c, x) == Run(LpmcrWrites(k, c), x)
  {
    var ws := LpmcrWrites(k, c);
    assert ws == [ws[0]] + ([ws[1]] + []);
    RunCons(ws[0], [ws[1]] + [], x);
    RunCons(ws[1], [], Field(ws[0].mask, ws[0].value).Apply(x));
  }

  /** MCR is only AND-ed: CMDM ends clear (video mode)... */
  lemma McrSelectsVideoMode(k: DsiConsts, c: VideoModeConfig, x: bv32)
    ensures McrConfigured(k, c, x) & k.mcrCmdm == 0
  {
  }

  /** ...and every other bit of MCR keeps its value. */
  lemma McrKeepsOtherBits(k: DsiConsts, c: VideoModeConfig, x: bv32)
    ensures McrConfigured(k, c, x) & !k.mcrCmdm == x & !k.mcrCmdm
  {
  }

  /** WCFGR loses DSIM and COLMUX and gains the colour coding shifted to bit 1. */
  lemma WcfgrForm(k: DsiConsts, c: VideoModeConfig, x: bv32)
    ensures WcfgrConfigured(k, c, x) == ((x & !k.wcfgrDsim) & !k.wcfgrColmux) | (c.colorCoding << 1)
  {
  }

  /** When the shifted colour coding fits COLMUX and the two fields are apart, DSIM ends
      clear: the wrapper is in video mode. */
  lemma WcfgrSelectsVideoMode(k: DsiConsts, c: VideoModeConfig, x: bv32)
    requires Fits(c.colorCoding << 1, k.wcfgrColmux) && k.wcfgrDsim & k.wcfgrColmux == 0
    ensures WcfgrConfigured(k, c, x) & k.wcfgrDsim == 0
  {
  }

  /** When the shifted colour coding fits COLMUX, COLMUX reads it back. */
  lemma WcfgrColorCodingReadsBack(k: DsiConsts, c: VideoModeConfig, x: bv32)
    requires Fits(c.colorCoding << 1, k.wcfgrColmux)
    ensures WcfgrConfigured(k, c, x) & k.wcfgrColmux == c.colorCoding << 1
  {
  }

  /** With three disjoint polarity fields and each polarity inside its own field, DEP reads
      back the data enable polarity... */
  lemma LpcrDataEnablePolarity(k: DsiConsts, c: VideoModeConfig, x: bv32)
    requires k.lpcrDep & k.lpcrVsp == 0 && k.lpcrDep & k.lpcrHsp == 0
    requires Fits(c.dePolarity, k.lpcrDep) && Fits(c.vsPolarity, k.lpcrVsp) && Fits(c.hsPolarity, k.lpcrHsp)
    ensures LpcrConfigured(k, c, x) & k.lpcrDep == c.dePolarity
  {
  }

  /** ...VSP the vertical sync polarity... */
  lemma LpcrVsyncPolarity(k: DsiConsts, c: VideoModeConfig, x: bv32)
    requires k.lpcrDep & k.lpcrVsp == 0 && k.lpcrVsp & k.lpcrHsp == 0
    requires Fits(c.dePolarity, k.lpcrDep) && Fits(c.vsPolarity, k.lpcrVsp) && Fits(c.hsPolarity, k.lpcrHsp)
    ensures LpcrConfigured(k, c, x) & k.lpcrVsp == c.vsPolarity
  {
  }

  /** ...HSP the horizontal sync polarity... */
  lemma LpcrHsyncPolarity(k: DsiConsts, c: VideoModeConfig, x: bv32)
    requires k.lpcrDep & k.lpcrHsp == 0 && k.lpcrVsp & k.lpcrHsp == 0
    requires Fits(c.dePolarity, k.lpcrDep) && Fits(c.vsPolarity, k.lpcrVsp) && Fits(c.hsPolarity, k.lpcrHsp)
    ensures LpcrConfigured(k, c, x) & k.lpcrHsp == c.hsPolarity
  {
  }

  /** ...and the bits outside the three fields keep their value. */
  lemma LpcrKeepsOtherBits(k: DsiConsts, c: VideoModeConfig, x: bv32)
    requires Fits(c.dePolarity, k.lpcrDep) && Fits(c.vsPolarity, k.lpcrVsp) && Fits(c.hsPolarity, k.lpcrHsp)
    ensures LpcrConfigured(k, c, x) & !(k.lpcrDep | k.lpcrVsp | k.lpcrHsp)
         == x & !(k.lpcrDep | k.lpcrVsp | k.lpcrHsp)
  {
  }

  /** Outside 18-bit coding LCOLCR only has COLC replaced by the colour coding. */
  lemma LcolcrOtherCodings(k: DsiConsts, c: VideoModeConfig, x: bv32)
    requires c.colorCoding != k.rgb666
    ensures LcolcrConfigured(k, c, x) == (x & !k.lcolcrColc) | c.colorCoding
  {
  }

  /** In 18-bit coding LPE is cleared and the loosely packed setting OR-ed in, after the
      COLC write. */
  lemma LcolcrEighteenBit(k: DsiConsts, c: VideoModeConfig, x: bv32)
    requires c.colorCoding == k.rgb666
    ensures LcolcrConfigured(k, c, x) == (((x & !k.lcolcrColc) | c.colorCoding) & !k.lcolcrLpe) | c.looselyPacked
  {
  }

  /** In 18-bit coding a configuration that passed the assertion leaves LPE reading the
      "enabled" constant, whatever COLC holds. */
  lemma LcolcrLooselyPacked(k: DsiConsts, c: VideoModeConfig, x: bv32)
    requires Precondition(k, c) && c.colorCoding == k.rgb666
    requires Fits(k.looselyPackedEnable, k.lcolcrLpe)
    ensures LcolcrConfigured(k, c, x) & k.lcolcrLpe == k.looselyPackedEnable
  {
  }

  /** The transmission type OR-ed into VMCR first survives outside the masks of the eight
      later VMCR steps. */
  lemma VmcrModeSurvives(k: DsiConsts, c: VideoModeConfig, x: bv32)
    ensures var later := k.vmcrLpce | k.vmcrLphfpe | k.vmcrLphbpe | k.vmcrLpvae | k.vmcrLpvfpe
                       | k.vmcrLpvbpe | k.vmcrLpvsae | k.vmcrFbtaae;
      VmcrConfigured(k, c, x) & (c.mode & !later) == c.mode & !later
  {
  }

  /** The command transmission mode survives outside the masks of the seven later steps. */
  lemma VmcrCommandTransmissionSurvives(k: DsiConsts, c: VideoModeConfig, x: bv32)
    ensures var later := k.vmcrLphfpe | k.vmcrLphbpe | k.vmcrLpvae | k.vmcrLpvfpe
                       | k.vmcrLpvbpe | k.vmcrLpvsae | k.vmcrFbtaae;
      VmcrConfigured(k, c, x) & (c.lpCommandEnable & !later) == c.lpCommandEnable & !later
  {
  }

  /** Inside FBTAAE, the last VMCR step, the acknowledge request wins. */
  lemma VmcrAcknowledgeWins(k: DsiConsts, c: VideoModeConfig, x: bv32)
    ensures VmcrConfigured(k, c, x) & k.vmcrFbtaae == c.frameBtaAcknowledgeEnable & k.vmcrFbtaae
  {
    VmcrIsOrderedChain(k, c, x);
    LastWriteWins(VmcrWrites(k, c), x);
  }

  /** Inside VLPSIZE, the later LPMCR step, the VACT packet size wins. */
  lemma LpmcrVactSizeWins(k: DsiConsts, c: VideoModeConfig, x: bv32)
    ensures LpmcrConfigured(k, c, x) & k.lpmcrVlpsize == c.lpVactLargestPacketSize & k.lpmcrVlpsize
  {
  }

  /** The shifted largest packet size survives outside VLPSIZE. */
  lemma LpmcrLargestSizeSurvives(k: DsiConsts, c: VideoModeConfig, x: bv32)
    ensures LpmcrConfigured(k, c, x) & ((c.lpLargestPacketSize << 16) & !k.lpmcrVlpsize)
         == (c.lpLargestPacketSize << 16) & !k.lpmcrVlpsize
  {
  }

  /** Programming MCR a second time with the same configuration changes nothing. */
  lemma McrIdempotent(k: DsiConsts, c: VideoModeConfig, x: bv32)
    ensures McrConfigured(k, c, McrConfigured(k, c, x)) == McrConfigured(k, c, x)
  {
  }

  /** Programming WCFGR a second time changes nothing. */
  lemma WcfgrIdempotent(k: DsiConsts, c: VideoModeConfig, x: bv32)
    ensures WcfgrConfigured(k, c, WcfgrConfigured(k, c, x)) == WcfgrConfigured(k, c, x)
  {
  }

  /** Programming LPCR a second time changes nothing. */
  lemma LpcrIdempotent(k: DsiConsts, c: VideoModeConfig, x: bv32)
    ensures LpcrConfigured(k, c, LpcrConfigured(k, c, x)) == LpcrConfigured(k, c, x)
  {
  }

  /** Programming LCOLCR a second time changes nothing, in either colour coding. */
  lemma LcolcrIdempotent(k: DsiConsts, c: VideoModeConfig, x: bv32)
    ensures LcolcrConfigured(k, c, LcolcrConfigured(k, c, x)) == LcolcrConfigured(k, c, x)
  {
  }

  /** Programming VMCR a second time changes nothing: its nine steps compose into one
      closed-form update. */
  lemma VmcrIdempotent(k: DsiConsts, c: VideoModeConfig, x: bv32)
    ensures VmcrConfigured(k, c, VmcrConfigured(k, c, x)) == VmcrConfigured(k, c, x)
  {
    VmcrIsOrderedChain(k, c, x);
    VmcrIsOrderedChain(k, c, VmcrConfigured(k, c, x));
    RunIdempotent(VmcrWrites(k, c), x);
  }

  /** Programming LPMCR a second time changes nothing. */
  lemma LpmcrIdempotent(k: DsiConsts, c: VideoModeConfig, x: bv32)
    ensures LpmcrConfigured(k, c, LpmcrConfigured(k, c, x)) == LpmcrConfigured(k, c, x)
  {
  }

  /** `DsiVideoConfig::apply`. When the loosely-packed check fails the firmware panics before
      touching the hardware; here that is `applied == false` with every register unchanged.
      The PHY timing registers are outside the frame, so they keep their values. */
  method Apply(c: VideoModeConfig, k: DsiConsts, host: Registers) returns (applied: bool)
    modifies host, host.timing
    ensures applied == Precondition(k, c)
    ensures !applied ==> unchanged(host, host.timing)
    ensures applied ==> host.mcr == McrConfigured(k, c, old(host.mcr))
    ensures applied ==> host.wcfgr == WcfgrConfigured(k, c, old(host.wcfgr))
    ensures applied ==> host.vmcr == VmcrConfigured(k, c, old(host.vmcr))
    ensures applied ==> host.vpcr == Field(k.vpcrVpsize, c.packetSize).Apply(old(host.vpcr))
    ensures applied ==> host.vccr == Field(k.vccrNumc, c.numberOfChunks).Apply(old(host.vccr))
    ensures applied ==> host.vnpcr == Field(k.vnpcrNpsize, c.nullPacketSize).Apply(old(host.vnpcr))
    ensures applied ==> host.lvcidr == Field(k.lvcidrVcid, c.virtualChannelId).Apply(old(host.lvcidr))
    ensures applied ==> host.lpcr == LpcrConfigured(k, c, old(host.lpcr))
    ensures applied ==> host.lcolcr == LcolcrConfigured(k, c, old(host.lcolcr))
    ensures applied ==> host.timing.vhsacr == Field(k.vhsacrHsa, c.horizontalSyncActive).Apply(old(host.timing.vhsacr))
    ensures applied ==> host.timing.vhbpcr == Field(k.vhbpcrHbp, c.horizontalBackPorch).Apply(old(host.timing.vhbpcr))
    ensures applied ==> host.timing.vlcr == Field(k.vlcrHline, c.horizontalLine).Apply(old(host.timing.vlcr))
    ensures applied ==> host.timing.vvsacr == Field(k.vvsacrVsa, c.verticalSyncActive).Apply(old(host.timing.vvsacr))
    ensures applied ==> host.timing.vvbpcr == Field(k.vvbpcrVbp, c.verticalBackPorch).Apply(old(host.timing.vvbpcr))
    ensures applied ==> host.timing.vvfpcr == Field(k.vvfpcrVfp, c.verticalFrontPorch).Apply(old(host.timing.vvfpcr))
    ensures applied ==> host.timing.vvacr == Field(k.vvacrVa, c.verticalActive).Apply(old(host.timing.vvacr))
    ensures applied ==> host.lpmcr == LpmcrConfigured(k, c, old(host.lpmcr))
  {
    applied := Precondition(k, c);
    if applied {
      Program(c, k, host);
    }
  }

  /** The body of `apply` after its check: the step pairs in source order, grouped as the
      source's comments group them. */
  method Program(c: VideoModeConfig, k: DsiConsts, host: Registers)
    modifies host, host.timing
    ensures host.mcr == McrConfigured(k, c, old(host.mcr))
    ensures host.wcfgr == WcfgrConfigured(k, c, old(host.wcfgr))
    ensures host.vmcr == VmcrConfigured(k, c, old(host.vmcr))
    ensures host.vpcr == Field(k.vpcrVpsize, c.packetSize).Apply(old(host.vpcr))
    ensures host.vccr == Field(k.vccrNumc, c.numberOfChunks).Apply(old(host.vccr))
    ensures host.vnpcr == Field(k.vnpcrNpsize, c.nullPacketSize).Apply(old(host.vnpcr))
    ensures host.lvcidr == Field(k.lvcidrVcid, c.virtualChannelId).Apply(old(host.lvcidr))
    ensures host.lpcr == LpcrConfigured(k, c, old(host.lpcr))
    ensures host.lcolcr == LcolcrConfigured(k, c, old(host.lcolcr))
    ensures host.timing.vhsacr == Field(k.vhsacrHsa, c.horizontalSyncActive).Apply(old(host.timing.vhsacr))
    ensures host.timing.vhbpcr == Field(k.vhbpcrHbp, c.horizontalBackPorch).Apply(old(host.timing.vhbpcr))
    ensures host.timing.vlcr == Field(k.vlcrHline, c.horizontalLine).Apply(old(host.timing.vlcr))
    ensures host.timing.vvsacr == Field(k.vvsacrVsa, c.verticalSyncActive).Apply(old(host.timing.vvsacr))
    ensures host.timing.vvbpcr == Field(k.vvbpcrVbp, c.verticalBackPorch).Apply(old(host.timing.vvbpcr))
    ensures host.timing.vvfpcr == Field(k.vvfpcrVfp, c.verticalFrontPorch).Apply(old(host.timing.vvfpcr))
    ensures host.timing.vvacr == Field(k.vvacrVa, c.verticalActive).Apply(old(host.timing.vvacr))
    ensures host.lpmcr == LpmcrConfigured(k, c, old(host.lpmcr))
  {
    ProgramFront(c, k, host);
    ProgramBack(c, k, host);
  }

  /** The first half of `apply`: video mode, packets, channel, polarities, colour coding. */
  method ProgramFront(c: VideoModeConfig, k: DsiConsts, host: Registers)
    modifies host
    ensures host.lpmcr == old(host.lpmcr)
    ensures host.mcr == McrConfigured(k, c, old(host.mcr))
    ensures host.wcfgr == WcfgrConfigured(k, c, old(host.wcfgr))
    ensures host.vmcr == Field(k.vmcrVmt, c.mode).Apply(old(host.vmcr))
    ensures host.vpcr == Field(k.vpcrVpsize, c.packetSize).Apply(old(host.vpcr))
    ensures host.vccr == Field(k.vccrNumc, c.numberOfChunks).Apply(old(host.vccr))
    ensures host.vnpcr == Field(k.vnpcrNpsize, c.nullPacketSize).Apply(old(host.vnpcr))
    ensures host.lvcidr == Field(k.lvcidrVcid, c.virtualChannelId).Apply(old(host.lvcidr))
    ensures host.lpcr == LpcrConfigured(k, c, old(host.lpcr))
    ensures host.lcolcr == LcolcrConfigured(k, c, old(host.lcolcr))
  {
    ProgramPackets(c, k, host);
    ProgramColorCoding(c, k, host);
  }

  /** The second half of `apply`: timing, then the low-power settings. */
  method ProgramBack(c: VideoModeConfig, k: DsiConsts, host: Registers)
    modifies host.timing, host`vmcr, host`lpmcr
    ensures host.timing.vhsacr == Field(k.vhsacrHsa, c.horizontalSyncActive).Apply(old(host.timing.vhsacr))
    ensures host.timing.vhbpcr == Field(k.vhbpcrHbp, c.horizontalBackPorch).Apply(old(host.timing.vhbpcr))
    ensures host.timing.vlcr == Field(k.vlcrHline, c.horizontalLine).Apply(old(host.timing.vlcr))
    ensures host.timing.vvsacr == Field(k.vvsacrVsa, c.verticalSyncActive).Apply(old(host.timing.vvsacr))
    ensures host.timing.vvbpcr == Field(k.vvbpcrVbp, c.verticalBackPorch).Apply(old(host.timing.vvbpcr))
    ensures host.timing.vvfpcr == Field(k.vvfpcrVfp, c.verticalFrontPorch).Apply(old(host.timing.vvfpcr))
    ensures host.timing.vvacr == Field(k.vvacrVa, c.verticalActive).Apply(old(host.timing.vvacr))
    ensures host.vmcr == VmcrLowPower(k, c, old(host.vmcr))
    ensures host.lpmcr == LpmcrConfigured(k, c, old(host.lpmcr))
  {
    ProgramTiming(c, k, host);
    ProgramLowPower(c, k, host);
  }

  /** Select video mode, then the packet sizes, the virtual channel and the polarities. */
  method ProgramPackets(c: VideoModeConfig, k: DsiConsts, host: Registers)
    modifies host`mcr, host`wcfgr, host`vmcr, host`vpcr, host`vccr, host`vnpcr, host`lvcidr
    modifies host`lpcr
    ensures host.mcr == McrConfigured(k, c, old(host.mcr))
    ensures host.wcfgr == Clear(k.wcfgrDsim).Apply(old(host.wcfgr))
    ensures host.vmcr == Field(k.vmcrVmt, c.mode).Apply(old(host.vmcr))
    ensures host.vpcr == Field(k.vpcrVpsize, c.packetSize).Apply(old(host.vpcr))
    ensures host.vccr == Field(k.vccrNumc, c.numberOfChunks).Apply(old(host.vccr))
    ensures host.vnpcr == Field(k.vnpcrNpsize, c.nullPacketSize).Apply(old(host.vnpcr))
    ensures host.lvcidr == Field(k.lvcidrVcid, c.virtualChannelId).Apply(old(host.lvcidr))
    ensures host.lpcr == LpcrConfigured(k, c, old(host.lpcr))
  {
    ClearCommandMode(c, k, host);
    ClearDsiMode(c, k, host);
    SetTransmissionType(c, k, host);
    SetPacketSize(c, k, host);
    SetNumberOfChunks(c, k, host);
    SetNullPacketSize(c, k, host);
    SetVirtualChannel(c, k, host);
    SetPolarities(c, k, host);
  }

  /** The colour coding of the host and of the wrapper, and in 18-bit coding the loosely
      packed variant. */
  method ProgramColorCoding(c: VideoModeConfig, k: DsiConsts, host: Registers)
    modifies host`wcfgr, host`lcolcr
    ensures host.wcfgr == Field(k.wcfgrColmux, c.colorCoding << 1).Apply(old(host.wcfgr))
    ensures host.lcolcr == LcolcrConfigured(k, c, old(host.lcolcr))
  {
    SetHostColorCoding(c, k, host);
    SetWrapperColorCoding(c, k, host);
    if c.colorCoding == k.rgb666 {
      SetLooselyPacked(c, k, host);
    }
  }

  /** The horizontal and vertical timing registers, one field each. */
  method ProgramTiming(c: VideoModeConfig, k: DsiConsts, host: Registers)
    modifies host.timing
    ensures host.timing.vhsacr == Field(k.vhsacrHsa, c.horizontalSyncActive).Apply(old(host.timing.vhsacr))
    ensures host.timing.vhbpcr == Field(k.vhbpcrHbp, c.horizontalBackPorch).Apply(old(host.timing.vhbpcr))
    ensures host.timing.vlcr == Field(k.vlcrHline, c.horizontalLine).Apply(old(host.timing.vlcr))
    ensures host.timing.vvsacr == Field(k.vvsacrVsa, c.verticalSyncActive).Apply(old(host.timing.vvsacr))
    ensures host.timing.vvbpcr == Field(k.vvbpcrVbp, c.verticalBackPorch).Apply(old(host.timing.vvbpcr))
    ensures host.timing.vvfpcr == Field(k.vvfpcrVfp, c.verticalFrontPorch).Apply(old(host.timing.vvfpcr))
    ensures host.timing.vvacr == Field(k.vvacrVa, c.verticalActive).Apply(old(host.timing.vvacr))
  {
    SetHorizontalSyncActive(c, k, host);
    SetHorizontalBackPorch(c, k, host);
    SetHorizontalLine(c, k, host);
    SetVerticalSyncActive(c, k, host);
    SetVerticalBackPorch(c, k, host);
    SetVerticalFrontPorch(c, k, host);
    SetVerticalActive(c, k, host);
  }

  /** Command transmission, low-power packet sizes, low-power transitions and the
      end-of-frame acknowledge request. */
  method ProgramLowPower(c: VideoModeConfig, k: DsiConsts, host: Registers)
    modifies host`vmcr, host`lpmcr
    ensures host.vmcr == VmcrLowPower(k, c, old(host.vmcr))
    ensures host.lpmcr == LpmcrConfigured(k, c, old(host.lpmcr))
  {
    SetCommandTransmission(c, k, host);
    SetLargestPacketSize(c, k, host);
    SetVactLargestPacketSize(c, k, host);
    SetLpHorizontalFrontPorch(c, k, host);
    SetLpHorizontalBackPorch(c, k, host);
    SetLpVerticalActive(c, k, host);
    SetLpVerticalFrontPorch(c, k, host);
    SetLpVerticalBackPorch(c, k, host);
    SetLpVerticalSyncActive(c, k, host);
    SetFrameAcknowledge(c, k, host);
  }

  /** Select video mode: clear MCR.CMDM. */
  method ClearCommandMode(c: VideoModeConfig, k: DsiConsts, host: Registers)
    modifies host`mcr
    ensures host.mcr == Clear(k.mcrCmdm).Apply(old(host.mcr))
  {
    host.mcr := host.mcr & !k.mcrCmdm;
  }

  /** Select video mode: clear WCFGR.DSIM. */
  method ClearDsiMode(c: VideoModeConfig, k: DsiConsts, host: Registers)
    modifies host`wcfgr
    ensures host.wcfgr == Clear(k.wcfgrDsim).Apply(old(host.wcfgr))
  {
    host.wcfgr := host.wcfgr & !k.wcfgrDsim;
  }

  /** The video mode transmission type, VMCR.VMT. */
  method SetTransmissionType(c: VideoModeConfig, k: DsiConsts, host: Registers)
    modifies host`vmcr
    ensures host.vmcr == Field(k.vmcrVmt, c.mode).Apply(old(host.vmcr))
  {
    host.vmcr := host.vmcr & !k.vmcrVmt;
    host.vmcr := host.vmcr | c.mode;
  }

  /** The video packet size, VPCR.VPSIZE. */
  method SetPacketSize(c: VideoModeConfig, k: DsiConsts, host: Registers)
    modifies host`vpcr
    ensures host.vpcr == Field(k.vpcrVpsize, c.packetSize).Apply(old(host.vpcr))
  {
    host.vpcr := host.vpcr & !k.vpcrVpsize;
    host.vpcr := host.vpcr | c.packetSize;
  }

  /** The number of chunks, VCCR.NUMC. */
  method SetNumberOfChunks(c: VideoModeConfig, k: DsiConsts, host: Registers)
    modifies host`vccr
    ensures host.vccr == Field(k.vccrNumc, c.numberOfChunks).Apply(old(host.vccr))
  {
    host.vccr := host.vccr & !k.vccrNumc;
    host.vccr := host.vccr | c.numberOfChunks;
  }

  /** The null packet size, VNPCR.NPSIZE. */
  method SetNullPacketSize(c: VideoModeConfig, k: DsiConsts, host: Registers)
    modifies host`vnpcr
    ensures host.vnpcr == Field(k.vnpcrNpsize, c.nullPacketSize).Apply(old(host.vnpcr))
  {
    host.vnpcr := host.vnpcr & !k.vnpcrNpsize;
    host.vnpcr := host.vnpcr | c.nullPacketSize;
  }

  /** The virtual channel of the LTDC traffic, LVCIDR.VCID. */
  method SetVirtualChannel(c: VideoModeConfig, k: DsiConsts, host: Registers)
    modifies host`lvcidr
    ensures host.lvcidr == Field(k.lvcidrVcid, c.virtualChannelId).Apply(old(host.lvcidr))
  {
    host.lvcidr := host.lvcidr & !k.lvcidrVcid;
    host.lvcidr := host.lvcidr | c.virtualChannelId;
  }

  /** The control signal polarities, LPCR.DEP, VSP and HSP, in one step. */
  method SetPolarities(c: VideoModeConfig, k: DsiConsts, host: Registers)
    modifies host`lpcr
    ensures host.lpcr == Field(k.lpcrDep | k.lpcrVsp | k.lpcrHsp, c.dePolarity | c.vsPolarity | c.hsPolarity).Apply(old(host.lpcr))
  {
    host.lpcr := host.lpcr & !(k.lpcrDep | k.lpcrVsp | k.lpcrHsp);
    host.lpcr := host.lpcr | (c.dePolarity | c.vsPolarity | c.hsPolarity);
  }

  /** The host colour coding, LCOLCR.COLC. */
  method SetHostColorCoding(c: VideoModeConfig, k: DsiConsts, host: Registers)
    modifies host`lcolcr
    ensures host.lcolcr == Field(k.lcolcrColc, c.colorCoding).Apply(old(host.lcolcr))
  {
    host.lcolcr := host.lcolcr & !k.lcolcrColc;
    host.lcolcr := host.lcolcr | c.colorCoding;
  }

  /** The wrapper colour coding, WCFGR.COLMUX, shifted to bit 1. */
  method SetWrapperColorCoding(c: VideoModeConfig, k: DsiConsts, host: Registers)
    modifies host`wcfgr
    ensures host.wcfgr == Field(k.wcfgrColmux, c.colorCoding << 1).Apply(old(host.wcfgr))
  {
    host.wcfgr := host.wcfgr & !k.wcfgrColmux;
    host.wcfgr := host.wcfgr | (c.colorCoding << 1);
  }

  /** The loosely packed variant, LCOLCR.LPE. */
  method SetLooselyPacked(c: VideoModeConfig, k: DsiConsts, host: Registers)
    modifies host`lcolcr
    ensures host.lcolcr == Field(k.lcolcrLpe, c.looselyPacked).Apply(old(host.lcolcr))
  {
    host.lcolcr := host.lcolcr & !k.lcolcrLpe;
    host.lcolcr := host.lcolcr | c.looselyPacked;
  }

  /** The horizontal sync active time, VHSACR.HSA. */
  method SetHorizontalSyncActive(c: VideoModeConfig, k: DsiConsts, host: Registers)
    modifies host.timing`vhsacr
    ensures host.timing.vhsacr == Field(k.vhsacrHsa, c.horizontalSyncActive).Apply(old(host.timing.vhsacr))
  {
    host.timing.vhsacr := host.timing.vhsacr & !k.vhsacrHsa;
    host.timing.vhsacr := host.timing.vhsacr | c.horizontalSyncActive;
  }

  /** The horizontal back porch, VHBPCR.HBP. */
  method SetHorizontalBackPorch(c: VideoModeConfig, k: DsiConsts, host: Registers)
    modifies host.timing`vhbpcr
    ensures host.timing.vhbpcr == Field(k.vhbpcrHbp, c.horizontalBackPorch).Apply(old(host.timing.vhbpcr))
  {
    host.timing.vhbpcr := host.timing.vhbpcr & !k.vhbpcrHbp;
    host.timing.vhbpcr := host.timing.vhbpcr | c.horizontalBackPorch;
  }

  /** The total line time, VLCR.HLINE. */
  method SetHorizontalLine(c: VideoModeConfig, k: DsiConsts, host: Registers)
    modifies host.timing`vlcr
    ensures host.timing.vlcr == Field(k.vlcrHline, c.horizontalLine).Apply(old(host.timing.vlcr))
  {
    host.timing.vlcr := host.timing.vlcr & !k.vlcrHline;
    host.timing.vlcr := host.timing.vlcr | c.horizontalLine;
  }

  /** The vertical sync active lines, VVSACR.VSA. */
  method SetVerticalSyncActive(c: VideoModeConfig, k: DsiConsts, host: Registers)
    modifies host.timing`vvsacr
    ensures host.timing.vvsacr == Field(k.vvsacrVsa, c.verticalSyncActive).Apply(old(host.timing.vvsacr))
  {
    host.timing.vvsacr := host.timing.vvsacr & !k.vvsacrVsa;
    host.timing.vvsacr := host.timing.vvsacr | c.verticalSyncActive;
  }

  /** The vertical back porch, VVBPCR.VBP. */
  method SetVerticalBackPorch(c: VideoModeConfig, k: DsiConsts, host: Registers)
    modifies host.timing`vvbpcr
    ensures host.timing.vvbpcr == Field(k.vvbpcrVbp, c.verticalBackPorch).Apply(old(host.timing.vvbpcr))
  {
    host.timing.vvbpcr := host.timing.vvbpcr & !k.vvbpcrVbp;
    host.timing.vvbpcr := host.timing.vvbpcr | c.verticalBackPorch;
  }

  /** The vertical front porch, VVFPCR.VFP. */
  method SetVerticalFrontPorch(c: VideoModeConfig, k: DsiConsts, host: Registers)
    modifies host.timing`vvfpcr
    ensures host.timing.vvfpcr == Field(k.vvfpcrVfp, c.verticalFrontPorch).Apply(old(host.timing.vvfpcr))
  {
    host.timing.vvfpcr := host.timing.vvfpcr & !k.vvfpcrVfp;
    host.timing.vvfpcr := host.timing.vvfpcr | c.verticalFrontPorch;
  }

  /** The vertical active period, VVACR.VA. */
  method SetVerticalActive(c: VideoModeConfig, k: DsiConsts, host: Registers)
    modifies host.timing`vvacr
    ensures host.timing.vvacr == Field(k.vvacrVa, c.verticalActive).Apply(old(host.timing.vvacr))
  {
    host.timing.vvacr := host.timing.vvacr & !k.vvacrVa;
    host.timing.vvacr := host.timing.vvacr | c.verticalActive;
  }

  /** The command transmission mode, VMCR.LPCE. */
  method SetCommandTransmission(c: VideoModeConfig, k: DsiConsts, host: Registers)
    modifies host`vmcr
    ensures host.vmcr == Field(k.vmcrLpce, c.lpCommandEnable).Apply(old(host.vmcr))
  {
    host.vmcr := host.vmcr & !k.vmcrLpce;
    host.vmcr := host.vmcr | c.lpCommandEnable;
  }

  /** The largest low-power packet size, LPMCR.LPSIZE, shifted to bit 16. */
  method SetLargestPacketSize(c: VideoModeConfig, k: DsiConsts, host: Registers)
    modifies host`lpmcr
    ensures host.lpmcr == Field(k.lpmcrLpsize, c.lpLargestPacketSize << 16).Apply(old(host.lpmcr))
  {
    host.lpmcr := host.lpmcr & !k.lpmcrLpsize;
    host.lpmcr := host.lpmcr | (c.lpLargestPacketSize << 16);
  }

  /** The largest low-power packet size in VACT, LPMCR.VLPSIZE. */
  method SetVactLargestPacketSize(c: VideoModeConfig, k: DsiConsts, host: Registers)
    modifies host`lpmcr
    ensures host.lpmcr == Field(k.lpmcrVlpsize, c.lpVactLargestPacketSize).Apply(old(host.lpmcr))
  {
    host.lpmcr := host.lpmcr & !k.lpmcrVlpsize;
    host.lpmcr := host.lpmcr | c.lpVactLargestPacketSize;
  }

  /** Low-power transitions in HFP, VMCR.LPHFPE. */
  method SetLpHorizontalFrontPorch(c: VideoModeConfig, k: DsiConsts, host: Registers)
    modifies host`vmcr
    ensures host.vmcr == Field(k.vmcrLphfpe, c.lpHorizontalFrontPorchEnable).Apply(old(host.vmcr))
  {
    host.vmcr := host.vmcr & !k.vmcrLphfpe;
    host.vmcr := host.vmcr | c.lpHorizontalFrontPorchEnable;
  }

  /** Low-power transitions in HBP, VMCR.LPHBPE. */
  method SetLpHorizontalBackPorch(c: VideoModeConfig, k: DsiConsts, host: Registers)
    modifies host`vmcr
    ensures host.vmcr == Field(k.vmcrLphbpe, c.lpHorizontalBackPorchEnable).Apply(old(host.vmcr))
  {
    host.vmcr := host.vmcr & !k.vmcrLphbpe;
    host.vmcr := host.vmcr | c.lpHorizontalBackPorchEnable;
  }

  /** Low-power transitions in VACT, VMCR.LPVAE. */
  method SetLpVerticalActive(c: VideoModeConfig, k: DsiConsts, host: Registers)
    modifies host`vmcr
    ensures host.vmcr == Field(k.vmcrLpvae, c.lpVerticalActiveEnable).Apply(old(host.vmcr))
  {
    host.vmcr := host.vmcr & !k.vmcrLpvae;
    host.vmcr := host.vmcr | c.lpVerticalActiveEnable;
  }

  /** Low-power transitions in VFP, VMCR.LPVFPE. */
  method SetLpVerticalFrontPorch(c: VideoModeConfig, k: DsiConsts, host: Registers)
    modifies host`vmcr
    ensures host.vmcr == Field(k.vmcrLpvfpe, c.lpVerticalFrontPorchEnable).Apply(old(host.vmcr))
  {
    host.vmcr := host.vmcr & !k.vmcrLpvfpe;
    host.vmcr := host.vmcr | c.lpVerticalFrontPorchEnable;
  }

  /** Low-power transitions in VBP, VMCR.LPVBPE. */
  method SetLpVerticalBackPorch(c: VideoModeConfig, k: DsiConsts, host: Registers)
    modifies host`vmcr
    ensures host.vmcr == Field(k.vmcrLpvbpe, c.lpVerticalBackPorchEnable).Apply(old(host.vmcr))
  {
    host.vmcr := host.vmcr & !k.vmcrLpvbpe;
    host.vmcr := host.vmcr | c.lpVerticalBackPorchEnable;
  }

  /** Low-power transitions in VSA, VMCR.LPVSAE. */
  method SetLpVerticalSyncActive(c: VideoModeConfig, k: DsiConsts, host: Registers)
    modifies host`vmcr
    ensures host.vmcr == Field(k.vmcrLpvsae, c.lpVerticalSyncActiveEnable).Apply(old(host.vmcr))
  {
    host.vmcr := host.vmcr & !k.vmcrLpvsae;
    host.vmcr := host.vmcr | c.lpVerticalSyncActiveEnable;
  }

  /** The end-of-frame acknowledge request, VMCR.FBTAAE. */
  method SetFrameAcknowledge(c: VideoModeConfig, k: DsiConsts, host: Registers)
    modifies host`vmcr
    ensures host.vmcr == Field(k.vmcrFbtaae, c.frameBtaAcknowledgeEnable).Apply(old(host.vmcr))
  {
    host.vmcr := host.vmcr & !k.vmcrFbtaae;
    host.vmcr := host.vmcr | c.frameBtaAcknowledgeEnable;
  }
}
