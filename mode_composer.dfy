/**
 * Mode selection and image adjustments of the OV2640 driver: which register
 * programs and direct writes each entry point sends to the sensor, as a
 * trace of bus operations (see ConfigEngine).
 */
module ModeComposer {
  import opened CTypes
  import opened RegisterTables
  import opened ConfigEngine

  datatype Option<T> = None | Some(value: T)

  // ---------------------------------------------------------------- resolution

  /** The mode codes the resolution selector recognises, in option order 0..5. */
  const RESOLUTION_CODES: seq<uint16> := [15533, 15534, 15535, 25535, 45535, 65535]

  /** The option an unrecognised code falls back to (320x240). */
  const DEFAULT_OPTION: int := 1

  /**
   * OV2640_ResolutionOptions' switch: a recognised code selects the option
   * at its position in RESOLUTION_CODES; every other code selects option 1.
   */
  function ResolutionOption(code: uint16): (opt: int)
    ensures 0 <= opt < |RESOLUTION_CODES|
    ensures code in RESOLUTION_CODES ==> RESOLUTION_CODES[opt] == code
    ensures code !in RESOLUTION_CODES ==> opt == DEFAULT_OPTION
  {
    if code == 15533 then 0
    else if code == 15534 then 1
    else if code == 15535 then 2
    else if code == 25535 then 3
    else if code == 45535 then 4
    else if code == 65535 then 5
    else 1
  }

  /** The table OV2640_ResolutionConfiguration's switch picks; any other option means 320x240. */
  function ResolutionTable(opt: int16): (p: Program)
    ensures WellFormed(p)
    ensures 0 <= opt < |RESOLUTION_PROGRAMS| ==> p == RESOLUTION_PROGRAMS[opt]
    ensures !(0 <= opt < |RESOLUTION_PROGRAMS|) ==> p == RESOLUTION_PROGRAMS[DEFAULT_OPTION]
  {
    ResolutionTablesWellFormed();
    if opt == 0 then RES_160x120
    else if opt == 1 then RES_320x240
    else if opt == 2 then RES_640x480
    else if opt == 3 then RES_800x600
    else if opt == 4 then RES_1024x768
    else if opt == 5 then RES_1280x960
    else RES_320x240
  }

  /** The six resolution programs are well formed. */
  lemma ResolutionTablesWellFormed()
    ensures forall p <- RESOLUTION_PROGRAMS :: WellFormed(p)
  {
    Res160WellFormed();
    Res320WellFormed();
    Res640WellFormed();
    Res800WellFormed();
    Res1024WellFormed();
    Res1280WellFormed();
  }

  /** The direct operations between the baseline programs and the resolution table. */
  const MODE_SWITCH_OPS: seq<BusOp> := [Delay(10), Write(0xff, 0x01), Delay(10), Write(0x15, 0x00)]

  /** The trace of the three baseline programs, the same for every option. */
  function BaselineOps(): seq<BusOp> {
    ProgramOps(JPEG_INIT) + ProgramOps(YUV422) + ProgramOps(JPEG) + MODE_SWITCH_OPS
  }

  /** The trace of OV2640_ResolutionConfiguration(opt). */
  function ResolutionConfigurationOps(opt: int16): seq<BusOp> {
    BaselineOps() + ProgramOps(ResolutionTable(opt))
  }

  /** The trace of OV2640_ResolutionOptions(code). */
  function ResolutionOptionsOps(code: uint16): seq<BusOp> {
    ResolutionConfigurationOps(ResolutionOption(code) as int16)
  }

  /** The direct operations write bank select 1 and then register 0x15, and read nothing. */
  lemma ModeSwitchTrace()
    ensures Writes(MODE_SWITCH_OPS) == [(0xff, 0x01), (0x15, 0x00)]
    ensures ReadAddrs(MODE_SWITCH_OPS) == []
  {
    var last := [Write(0x15, 0x00)];
    assert last[1..] == [];
    var s3 := [Delay(10)] + last;
    assert s3[1..] == last;
    var s2 := [Write(0xff, 0x01)] + s3;
    assert s2[1..] == s3;
    var s1 := [Delay(10)] + s2;
    assert s1[1..] == s2;
    assert s1 == MODE_SWITCH_OPS;
  }

  /**
   * The registers a resolution change writes, in order: the whole of the
   * JPEG initialisation, YUV422 and JPEG programs, then bank 1 is selected
   * and register 0x15 cleared, then the whole of exactly one resolution
   * table; nothing else is written.
   */
  lemma ResolutionConfigurationWrites(opt: int16)
    ensures Writes(ResolutionConfigurationOps(opt)) ==
              JPEG_INIT[..|JPEG_INIT| - 1] + YUV422[..|YUV422| - 1] + JPEG[..|JPEG| - 1]
              + [(0xff, 0x01), (0x15, 0x00)]
              + ResolutionTable(opt)[..|ResolutionTable(opt)| - 1]
  {
    JpegInitWellFormed();
    BaselineWellFormed();
    WellFormedRunsWholeTable(JPEG_INIT);
    WellFormedRunsWholeTable(YUV422);
    WellFormedRunsWholeTable(JPEG);
    WellFormedRunsWholeTable(ResolutionTable(opt));
    ModeSwitchTrace();
    var a, b, c, d, e := ProgramOps(JPEG_INIT), ProgramOps(YUV422), ProgramOps(JPEG), MODE_SWITCH_OPS,
                         ProgramOps(ResolutionTable(opt));
    WritesAppend(a, b);
    WritesAppend(a + b, c);
    WritesAppend(a + b + c, d);
    WritesAppend(a + b + c + d, e);
  }

  /** The six resolution tables are pairwise different. */
  lemma ResolutionTablesDistinct(i: int, j: int)
    requires 0 <= i < j < |RESOLUTION_PROGRAMS|
    ensures RESOLUTION_PROGRAMS[i] != RESOLUTION_PROGRAMS[j]
  {
    assert RES_160x120[28] != RES_320x240[28];
    assert RES_640x480[27] != RES_800x600[27];
    assert RES_640x480[28] != RES_1280x960[28];
    assert RES_800x600[27] != RES_1280x960[27];
  }

  /**
   * Each of the six recognised codes leads to its own trace, and every
   * unrecognised code leads to the trace of code 15534 (320x240).
   */
  lemma ResolutionOptionsSelect(c1: uint16, c2: uint16)
    ensures c1 in RESOLUTION_CODES && c2 in RESOLUTION_CODES && c1 != c2 ==>
              ResolutionOptionsOps(c1) != ResolutionOptionsOps(c2)
    ensures c1 !in RESOLUTION_CODES ==> ResolutionOptionsOps(c1) == ResolutionOptionsOps(15534)
  {
    if c1 in RESOLUTION_CODES && c2 in RESOLUTION_CODES && c1 != c2 {
      var o1, o2 := ResolutionOption(c1), ResolutionOption(c2);
      var p1, p2 := ResolutionTable(o1 as int16), ResolutionTable(o2 as int16);
      if o1 < o2 { ResolutionTablesDistinct(o1, o2); } else { ResolutionTablesDistinct(o2, o1); }
      if ResolutionOptionsOps(c1) == ResolutionOptionsOps(c2) {
        var base := BaselineOps();
        assert ResolutionOptionsOps(c1) == base + ProgramOps(p1);
        assert ResolutionOptionsOps(c2) == base + ProgramOps(p2);
        assert ProgramOps(p1) == (base + ProgramOps(p1))[|base|..];
        assert ProgramOps(p2) == (base + ProgramOps(p2))[|base|..];
        TraceDeterminesTable(p1, p2);
        assert false;
      }
    }
  }

  /** OV2640_ResolutionConfiguration. */
  method ResolutionConfiguration(bus: SensorBus, opt: int16)
    modifies bus
    ensures bus.ops == old(bus.ops) + ResolutionConfigurationOps(opt)
    ensures old(bus.wire) <= bus.wire
  {
    ApplyBaseline(bus);
    ghost var afterBaseline := bus.ops;
    ResolutionTablesWellFormed();
    if opt == 0 {
      Run(bus, RES_160x120);
    } else if opt == 1 {
      Run(bus, RES_320x240);
    } else if opt == 2 {
      Run(bus, RES_640x480);
    } else if opt == 3 {
      Run(bus, RES_800x600);
    } else if opt == 4 {
      Run(bus, RES_1024x768);
    } else if opt == 5 {
      Run(bus, RES_1280x960);
    } else {
      Run(bus, RES_320x240);
    }
    assert bus.ops == afterBaseline + ProgramOps(ResolutionTable(opt));
    AppendAssoc(old(bus.ops), BaselineOps(), ProgramOps(ResolutionTable(opt)));
  }

  /** The part of OV2640_ResolutionConfiguration that does not depend on the option. */
  method ApplyBaseline(bus: SensorBus)
    modifies bus
    ensures bus.ops == old(bus.ops) + BaselineOps()
    ensures old(bus.wire) <= bus.wire
  {
    JpegInitWellFormed();
    BaselineWellFormed();
    ghost var o0 := bus.ops;
    ghost var a, b, c := ProgramOps(JPEG_INIT), ProgramOps(YUV422), ProgramOps(JPEG);
    Run(bus, JPEG_INIT);
    assert bus.ops == o0 + a;
    Run(bus, YUV422);
    assert bus.ops == o0 + a + b;
    Run(bus, JPEG);
    assert bus.ops == o0 + a + b + c;
    bus.HalDelay(10);
    var status := bus.SccbWrite(0xff, 0x01);
    bus.HalDelay(10);
    status := bus.SccbWrite(0x15, 0x00);
    Concat(o0 + a + b + c, Delay(10), Write(0xff, 0x01), Delay(10), Write(0x15, 0x00));
    Assoc(o0, a, b, c, MODE_SWITCH_OPS);
  }

  // Regrouping lemmas for traces that contain the long initialisation program,
  // stated generically so that the solver does not expand the table.
  lemma AppendAssoc<T>(o: seq<T>, a: seq<T>, b: seq<T>)
    ensures o + a + b == o + (a + b)
  {
  }

  lemma Concat<T>(o: seq<T>, w: T, x: T, y: T, z: T)
    ensures o + [w] + [x] + [y] + [z] == o + [w, x, y, z]
  {
  }

  lemma Assoc<T>(o: seq<T>, a: seq<T>, b: seq<T>, c: seq<T>, d: seq<T>)
    ensures o + a + b + c + d == o + (a + b + c + d)
  {
  }

  /** OV2640_ResolutionOptions. */
  method ResolutionOptions(bus: SensorBus, code: uint16)
    modifies bus
    ensures bus.ops == old(bus.ops) + ResolutionOptionsOps(code)
    ensures old(bus.wire) <= bus.wire
  {
    if code == 15533 {
      ResolutionConfiguration(bus, 0);
    } else if code == 15534 {
      ResolutionConfiguration(bus, 1);
    } else if code == 15535 {
      ResolutionConfiguration(bus, 2);
    } else if code == 25535 {
      ResolutionConfiguration(bus, 3);
    } else if code == 45535 {
      ResolutionConfiguration(bus, 4);
    } else if code == 65535 {
      ResolutionConfiguration(bus, 5);
    } else {
      ResolutionConfiguration(bus, 1);
    }
  }

  // ---------------------------------------------------------------- adjustments

  /**
   * The level convention shared by brightness, contrast and saturation:
   * codes 0, 1, 2 are the steps 0, +1, +2 and codes 3, 4 the steps -1, -2;
   * any other code is no step at all.
   */
  function LevelStep(level: int16): (step: Option<int>)
    ensures step.Some? <==> 0 <= level <= 4
    ensures step.Some? ==> -2 <= step.value <= 2
    ensures step.Some? ==> (step.value >= 0 <==> level <= 2)
    ensures step.Some? ==> step.value == (if level <= 2 then level as int else 2 - level as int)
  {
    if 0 <= level <= 2 then Some(level as int)
    else if level == 3 then Some(-1)
    else if level == 4 then Some(-2)
    else None
  }

  /** The code of a step, the inverse of LevelStep. */
  function LevelCode(step: int): (level: int16)
    requires -2 <= step <= 2
    ensures 0 <= level <= 4
  {
    if step >= 0 then step as int16 else (2 - step) as int16
  }

  /** LevelStep and LevelCode are inverse bijections between codes 0..4 and steps -2..+2. */
  lemma LevelCodeRoundTrip(level: int16, step: int)
    ensures 0 <= level <= 4 ==> LevelCode(LevelStep(level).value) == level
    ensures -2 <= step <= 2 ==> LevelStep(LevelCode(step)) == Some(step)
  {
  }

  /** The brightness tables from step -2 to step +2. */
  const BRIGHTNESS_BY_STEP: seq<Program> :=
    [BRIGHTNESS_MINUS2, BRIGHTNESS_MINUS1, BRIGHTNESS0, BRIGHTNESS1, BRIGHTNESS2]
  /** The contrast tables from step -2 to step +2. */
  const CONTRAST_BY_STEP: seq<Program> :=
    [CONTRAST_MINUS2, CONTRAST_MINUS1, CONTRAST0, CONTRAST1, CONTRAST2]
  /** The saturation tables from step -2 to step +2. */
  const SATURATION_BY_STEP: seq<Program> :=
    [SATURATION_MINUS2, SATURATION_MINUS1, SATURATION0, SATURATION1, SATURATION2]

  /** The table OV2640_Brightness applies: the table of the level's step, or none. */
  function BrightnessProgram(level: int16): (p: Option<Program>)
    ensures p.Some? <==> LevelStep(level).Some?
    ensures p.Some? ==> WellFormed(p.value) && p.value == BRIGHTNESS_BY_STEP[LevelStep(level).value + 2]
  {
    AdjustmentsWellFormed();
    if level == 0 then Some(BRIGHTNESS0)
    else if level == 1 then Some(BRIGHTNESS1)
    else if level == 2 then Some(BRIGHTNESS2)
    else if level == 3 then Some(BRIGHTNESS_MINUS1)
    else if level == 4 then Some(BRIGHTNESS_MINUS2)
    else None
  }

  /** The table OV2640_Contrast applies: the table of the level's step, or none. */
  function ContrastProgram(level: int16): (p: Option<Program>)
    ensures p.Some? <==> LevelStep(level).Some?
    ensures p.Some? ==> WellFormed(p.value) && p.value == CONTRAST_BY_STEP[LevelStep(level).value + 2]
  {
    AdjustmentsWellFormed();
    if level == 0 then Some(CONTRAST0)
    else if level == 1 then Some(CONTRAST1)
    else if level == 2 then Some(CONTRAST2)
    else if level == 3 then Some(CONTRAST_MINUS1)
    else if level == 4 then Some(CONTRAST_MINUS2)
    else None
  }

  /** The table OV2640_Saturation applies: the table of the level's step, or none. */
  function SaturationProgram(level: int16): (p: Option<Program>)
    ensures p.Some? <==> LevelStep(level).Some?
    ensures p.Some? ==> WellFormed(p.value) && p.value == SATURATION_BY_STEP[LevelStep(level).value + 2]
  {
    AdjustmentsWellFormed();
    if level == 0 then Some(SATURATION0)
    else if level == 1 then Some(SATURATION1)
    else if level == 2 then Some(SATURATION2)
    else if level == 3 then Some(SATURATION_MINUS1)
    else if level == 4 then Some(SATURATION_MINUS2)
    else None
  }

  /** The effect tables in the order of their codes 0..7; code 7 restores the normal image. */
  const EFFECTS_BY_CODE: seq<Program> := [
    SPECIAL_EFFECTS_ANTIQUE, SPECIAL_EFFECTS_BLUISH, SPECIAL_EFFECTS_GREENISH, SPECIAL_EFFECTS_REDDISH,
    SPECIAL_EFFECTS_BLACK, SPECIAL_EFFECTS_NEGATIVE, SPECIAL_EFFECTS_BLACK_NEGATIVE, SPECIAL_EFFECTS_NORMAL
  ]

  /** The table OV2640_SpecialEffect applies: one for each code 0..7, none otherwise. */
  function SpecialEffectProgram(effect: int16): (p: Option<Program>)
    ensures p.Some? <==> 0 <= effect < |EFFECTS_BY_CODE|
    ensures p.Some? ==> WellFormed(p.value) && p.value == EFFECTS_BY_CODE[effect]
  {
    EffectsWellFormed();
    if effect == 0 then Some(SPECIAL_EFFECTS_ANTIQUE)
    else if effect == 1 then Some(SPECIAL_EFFECTS_BLUISH)
    else if effect == 2 then Some(SPECIAL_EFFECTS_GREENISH)
    else if effect == 3 then Some(SPECIAL_EFFECTS_REDDISH)
    else if effect == 4 then Some(SPECIAL_EFFECTS_BLACK)
    else if effect == 5 then Some(SPECIAL_EFFECTS_NEGATIVE)
    else if effect == 6 then Some(SPECIAL_EFFECTS_BLACK_NEGATIVE)
    else if effect == 7 then Some(SPECIAL_EFFECTS_NORMAL)
    else None
  }

  /** The trace of an adjustment: its table run by the engine, or nothing. */
  function AdjustOps(p: Option<Program>): seq<BusOp> {
    if p.Some? then ProgramOps(p.value) else []
  }

  /** OV2640_AdvancedWhiteBalance: select bank 0, wait 1 ms, clear register 0xc7. */
  const ADVANCED_WHITE_BALANCE_OPS: seq<BusOp> := [Write(0xff, 0x00), Delay(1), Write(0xc7, 0x00)]

  /** OV2640_SimpleWhiteBalance: select bank 0, wait 1 ms, write 0x10 to register 0xc7. */
  const SIMPLE_WHITE_BALANCE_OPS: seq<BusOp> := [Write(0xff, 0x00), Delay(1), Write(0xc7, 0x10)]

  /** The light-mode tables for codes 1..4: sunny, cloudy, office, home. */
  const LIGHT_MODES_BY_CODE: seq<Program> := [LIGHT_MODE_SUNNY, LIGHT_MODE_CLOUDY, LIGHT_MODE_OFFICE, LIGHT_MODE_HOME]

  /** The trace of OV2640_LightMode: code 0 is automatic white balance, 1..4 a table, else nothing. */
  function LightModeOps(mode: int16): (ops: seq<BusOp>)
    ensures mode == 0 ==> ops == ADVANCED_WHITE_BALANCE_OPS
    ensures 1 <= mode <= 4 ==> ops == ProgramOps(LIGHT_MODES_BY_CODE[mode - 1])
    ensures !(0 <= mode <= 4) ==> ops == []
  {
    if mode == 0 then ADVANCED_WHITE_BALANCE_OPS
    else if mode == 1 then ProgramOps(LIGHT_MODE_SUNNY)
    else if mode == 2 then ProgramOps(LIGHT_MODE_CLOUDY)
    else if mode == 3 then ProgramOps(LIGHT_MODE_OFFICE)
    else if mode == 4 then ProgramOps(LIGHT_MODE_HOME)
    else []
  }

  /**
   * The white-balance helpers write directly, without the engine's reads
   * and read-back: two writes each, identical except for the value given
   * to register 0xc7.
   */
  lemma WhiteBalanceTraces()
    ensures ReadAddrs(ADVANCED_WHITE_BALANCE_OPS) == [] && ReadAddrs(SIMPLE_WHITE_BALANCE_OPS) == []
    ensures Writes(ADVANCED_WHITE_BALANCE_OPS) == [(0xff, 0x00), (0xc7, 0x00)]
    ensures Writes(SIMPLE_WHITE_BALANCE_OPS) == [(0xff, 0x00), (0xc7, 0x10)]
  {
    DirectTrace(0x00);
    DirectTrace(0x10);
  }

  /** Bank select 0, a 1 ms wait and one write to register 0xc7. */
  lemma DirectTrace(v: bv8)
    ensures ReadAddrs([Write(0xff, 0x00), Delay(1), Write(0xc7, v)]) == []
    ensures Writes([Write(0xff, 0x00), Delay(1), Write(0xc7, v)]) == [(0xff, 0x00), (0xc7, v)]
  {
    var last := [Write(0xc7, v)];
    assert last[1..] == [];
    assert Writes(last) == [(0xc7, v)] && ReadAddrs(last) == [];
    var s2 := [Delay(1)] + last;
    assert s2[1..] == last;
    assert Writes(s2) == [(0xc7, v)] && ReadAddrs(s2) == [];
    var s1 := [Write(0xff, 0x00)] + s2;
    assert s1[1..] == s2;
    assert Writes(s1) == [(0xff, 0x00), (0xc7, v)] && ReadAddrs(s1) == [];
    assert s1 == [Write(0xff, 0x00), Delay(1), Write(0xc7, v)];
  }

  /**
   * Every adjustment is a one-to-one function of its code on the accepted
   * range: two different accepted codes never produce the same bus trace,
   * and any code outside the range produces none.
   */
  lemma AdjustmentsDistinguishLevels(l1: int16, l2: int16)
    requires 0 <= l1 <= 4 && 0 <= l2 <= 4 && l1 != l2
    ensures AdjustOps(BrightnessProgram(l1)) != AdjustOps(BrightnessProgram(l2))
    ensures AdjustOps(ContrastProgram(l1)) != AdjustOps(ContrastProgram(l2))
    ensures AdjustOps(SaturationProgram(l1)) != AdjustOps(SaturationProgram(l2))
  {
    LevelCodeRoundTrip(l1, 0);
    LevelCodeRoundTrip(l2, 0);
    var s1, s2 := LevelStep(l1).value + 2, LevelStep(l2).value + 2;
    assert s1 != s2;
    StepTablesDistinct(s1, s2);
    if AdjustOps(BrightnessProgram(l1)) == AdjustOps(BrightnessProgram(l2)) {
      TraceDeterminesTable(BrightnessProgram(l1).value, BrightnessProgram(l2).value);
    }
    if AdjustOps(ContrastProgram(l1)) == AdjustOps(ContrastProgram(l2)) {
      TraceDeterminesTable(ContrastProgram(l1).value, ContrastProgram(l2).value);
    }
    if AdjustOps(SaturationProgram(l1)) == AdjustOps(SaturationProgram(l2)) {
      TraceDeterminesTable(SaturationProgram(l1).value, SaturationProgram(l2).value);
    }
  }

  /** The five tables of each adjustment are pairwise different. */
  lemma StepTablesDistinct(i: int, j: int)
    requires 0 <= i < 5 && 0 <= j < 5 && i != j
    ensures BRIGHTNESS_BY_STEP[i] != BRIGHTNESS_BY_STEP[j]
    ensures CONTRAST_BY_STEP[i] != CONTRAST_BY_STEP[j]
    ensures SATURATION_BY_STEP[i] != SATURATION_BY_STEP[j]
  {
    assert BRIGHTNESS_BY_STEP[i][4] != BRIGHTNESS_BY_STEP[j][4];
    assert CONTRAST_BY_STEP[i][5] != CONTRAST_BY_STEP[j][5];
    assert SATURATION_BY_STEP[i][4] != SATURATION_BY_STEP[j][4];
  }

  /** Two different effect codes in 0..7 produce different bus traces. */
  lemma SpecialEffectsDistinguishCodes(e1: int16, e2: int16)
    requires 0 <= e1 < 8 && 0 <= e2 < 8 && e1 != e2
    ensures AdjustOps(SpecialEffectProgram(e1)) != AdjustOps(SpecialEffectProgram(e2))
  {
    EffectTablesDistinct(e1 as int, e2 as int);
    if AdjustOps(SpecialEffectProgram(e1)) == AdjustOps(SpecialEffectProgram(e2)) {
      TraceDeterminesTable(SpecialEffectProgram(e1).value, SpecialEffectProgram(e2).value);
    }
  }

  /** The eight effect tables are pairwise different. */
  lemma EffectTablesDistinct(i: int, j: int)
    requires 0 <= i < 8 && 0 <= j < 8 && i != j
    ensures EFFECTS_BY_CODE[i] != EFFECTS_BY_CODE[j]
  {
    var p, q := EFFECTS_BY_CODE[i], EFFECTS_BY_CODE[j];
    assert p[2] != q[2] || p[4] != q[4] || p[5] != q[5];
  }

  /** OV2640_Brightness. */
  method Brightness(bus: SensorBus, level: int16)
    modifies bus
    ensures BrightnessProgram(level).None? ==> bus.wire == old(bus.wire)
    ensures bus.ops == old(bus.ops) + AdjustOps(BrightnessProgram(level))
    ensures old(bus.wire) <= bus.wire
  {
    AdjustmentsWellFormed();
    if level == 0 {
      Run(bus, BRIGHTNESS0);
    } else if level == 1 {
      Run(bus, BRIGHTNESS1);
    } else if level == 2 {
      Run(bus, BRIGHTNESS2);
    } else if level == 3 {
      Run(bus, BRIGHTNESS_MINUS1);
    } else if level == 4 {
      Run(bus, BRIGHTNESS_MINUS2);
    }
  }

  /** OV2640_Contrast. */
  method Contrast(bus: SensorBus, level: int16)
    modifies bus
    ensures ContrastProgram(level).None? ==> bus.wire == old(bus.wire)
    ensures bus.ops == old(bus.ops) + AdjustOps(ContrastProgram(level))
    ensures old(bus.wire) <= bus.wire
  {
    AdjustmentsWellFormed();
    if level == 0 {
      Run(bus, CONTRAST0);
    } else if level == 1 {
      Run(bus, CONTRAST1);
    } else if level == 2 {
      Run(bus, CONTRAST2);
    } else if level == 3 {
      Run(bus, CONTRAST_MINUS1);
    } else if level == 4 {
      Run(bus, CONTRAST_MINUS2);
    }
  }

  /** OV2640_Saturation. */
  method Saturation(bus: SensorBus, level: int16)
    modifies bus
    ensures SaturationProgram(level).None? ==> bus.wire == old(bus.wire)
    ensures bus.ops == old(bus.ops) + AdjustOps(SaturationProgram(level))
    ensures old(bus.wire) <= bus.wire
  {
    AdjustmentsWellFormed();
    if level == 0 {
      Run(bus, SATURATION0);
    } else if level == 1 {
      Run(bus, SATURATION1);
    } else if level == 2 {
      Run(bus, SATURATION2);
    } else if level == 3 {
      Run(bus, SATURATION_MINUS1);
    } else if level == 4 {
      Run(bus, SATURATION_MINUS2);
    }
  }

  /** OV2640_SpecialEffect. */
  method SpecialEffect(bus: SensorBus, effect: int16)
    modifies bus
    ensures SpecialEffectProgram(effect).None? ==> bus.wire == old(bus.wire)
    ensures bus.ops == old(bus.ops) + AdjustOps(SpecialEffectProgram(effect))
    ensures old(bus.wire) <= bus.wire
  {
    EffectsWellFormed();
    if effect == 0 {
      Run(bus, SPECIAL_EFFECTS_ANTIQUE);
    } else if effect == 1 {
      Run(bus, SPECIAL_EFFECTS_BLUISH);
    } else if effect == 2 {
      Run(bus, SPECIAL_EFFECTS_GREENISH);
    } else if effect == 3 {
      Run(bus, SPECIAL_EFFECTS_REDDISH);
    } else if effect == 4 {
      Run(bus, SPECIAL_EFFECTS_BLACK);
    } else if effect == 5 {
      Run(bus, SPECIAL_EFFECTS_NEGATIVE);
    } else if effect == 6 {
      Run(bus, SPECIAL_EFFECTS_BLACK_NEGATIVE);
    } else if effect == 7 {
      Run(bus, SPECIAL_EFFECTS_NORMAL);
    }
  }

  /** OV2640_AdvancedWhiteBalance. */
  method AdvancedWhiteBalance(bus: SensorBus)
    modifies bus
    ensures bus.ops == old(bus.ops) + ADVANCED_WHITE_BALANCE_OPS
    ensures old(bus.wire) <= bus.wire
  {
    var status := bus.SccbWrite(0xff, 0x00);
    bus.HalDelay(1);
    status := bus.SccbWrite(0xc7, 0x00);
  }

  /** OV2640_SimpleWhiteBalance. */
  method SimpleWhiteBalance(bus: SensorBus)
    modifies bus
    ensures bus.ops == old(bus.ops) + SIMPLE_WHITE_BALANCE_OPS
    ensures old(bus.wire) <= bus.wire
  {
    var status := bus.SccbWrite(0xff, 0x00);
    bus.HalDelay(1);
    status := bus.SccbWrite(0xc7, 0x10);
  }

  /** OV2640_LightMode. */
  method LightMode(bus: SensorBus, mode: int16)
    modifies bus
    ensures bus.ops == old(bus.ops) + LightModeOps(mode)
    ensures !(0 <= mode <= 4) ==> bus.wire == old(bus.wire)
    ensures old(bus.wire) <= bus.wire
  {
    EffectsWellFormed();
    if mode == 0 {
      AdvancedWhiteBalance(bus);
    } else if mode == 1 {
      Run(bus, LIGHT_MODE_SUNNY);
    } else if mode == 2 {
      Run(bus, LIGHT_MODE_CLOUDY);
    } else if mode == 3 {
      Run(bus, LIGHT_MODE_OFFICE);
    } else if mode == 4 {
      Run(bus, LIGHT_MODE_HOME);
    }
  }

  /** OV2640_Configuration on one of the driver's own tables. */
  method Run(bus: SensorBus, p: Program)
    requires WellFormed(p)
    modifies bus
    ensures bus.ops == old(bus.ops) + ProgramOps(p)
    ensures old(bus.wire) <= bus.wire
  {
    WellFormedRunsWholeTable(p);
    bus.Configuration(p);
  }
}
