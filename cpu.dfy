/** The CPU step: the register file and execution flags, the two opcode
    dispatch tables, and `execute_instr`, which gates on the execution flags,
    fetches one byte through the bus and dispatches it. The instruction
    handlers themselves are named by tags and not modelled. */
module Cpu {
  import opened Errors
  import opened Mem
  import opened Mmu

  /** Three-bit register codes; code 6 (0b110) names no register. */
  const REG_A := 7  // 0b111
  const REG_B := 0  // 0b000
  const REG_C := 1  // 0b001
  const REG_D := 2  // 0b010
  const REG_E := 3  // 0b011
  const REG_H := 4  // 0b100
  const REG_L := 5  // 0b101

  /** `gp_regs` at construction: every register code mapped to 0. */
  const INITIAL_GP_REGS: map<int, int> :=
    map[REG_A := 0, REG_B := 0, REG_C := 0, REG_D := 0, REG_E := 0, REG_H := 0, REG_L := 0]

  lemma InitialRegisterFile()
    ensures INITIAL_GP_REGS.Keys == {0, 1, 2, 3, 4, 5, 7}
    ensures 6 !in INITIAL_GP_REGS
    ensures forall r :: r in INITIAL_GP_REGS ==> INITIAL_GP_REGS[r] == 0
  {
  }

  datatype Option<T> = None | Some(value: T)

  /** The handler methods the main table binds, one tag per method name
      (`self.load8_imm` is `Load8Imm`, `self.ldi_to` is `LdiTo`, the bare
      `callc` is `CallC`). */
  datatype Handler =
    | Nop | Stop | Halt | Ext | Daa | Scf | Ccf | Cpl | IntSwitch
    | Rlca | Rla | Rrca | Rra
    | Load8Imm | LoadImm | Load16Imm | Load8Reg | LoadToMem | LoadFrMem
    | LdiTo | LddTo | LdiFr | LddFr | LdhImmTo | LdhImmFr | LdhC
    | LoadImmTo | LoadImmFr | LoadToSp | LoadSpWithOffset | LoadSpToMem
    | Inc16 | Dec16 | Inc8 | Dec8
    | Add8 | Adc8 | Sub8 | Sbc8 | And8 | Xor8 | Or8 | Cp8
    | Add8Imm | Sub8Imm | And8Imm | Or8Imm | Adc8Imm | SbcImm | Xor8Imm | Cp8Imm
    | Push | Pop | Rst | CallNz | CallNc | CallZ | CallC | Call
    | RetNz | RetNc | RetZ | RetC | Ret | Reti
    | JrNz | JrNc | Jr | JrZ | JrC
    | Ill

  /** The handler methods the extended table binds. */
  datatype ExtHandler = Rlc | Rrc | Sla | Sra | Swap | Srl | Bit | Res | Set

  /** The main dispatch table: the handler bound to `opcode`, or None when
      the dictionary has no such key. */
  function Ops(opcode: int): (h: Option<Handler>)
    ensures h.Some? ==> 0 <= opcode < 0x100
  {
    if 0 <= opcode < 0x100 then OpsGrid(opcode / 16, opcode % 16) else None
  }

  /** The entries of the main table's dictionary literal laid out on the
      16 x 16 opcode grid: `OpsGrid(h, l)` is the entry for opcode 0xhl.
      The literal lists 0x50..0x53 twice, first as `load8_reg` and then as
      `dec8`; a dictionary display keeps the later value, so only the
      `dec8` entries appear here. */
  function OpsGrid(high: int, low: int): Option<Handler>
  {
    match (high, low)
    case (0x0, 0x0) => Some(Nop) case (0x0, 0x1) => Some(Load16Imm) case (0x0, 0x2) => Some(LoadToMem) case (0x0, 0x3) => Some(Inc16)
    case (0x0, 0x4) => Some(Inc8) case (0x0, 0x6) => Some(Load8Imm) case (0x0, 0x7) => Some(Rlca) case (0x0, 0x8) => Some(LoadSpToMem)
    case (0x0, 0xA) => Some(LoadFrMem) case (0x0, 0xB) => Some(Dec16) case (0x0, 0xC) => Some(Inc8) case (0x0, 0xD) => Some(Dec8)
    case (0x0, 0xE) => Some(Load8Imm) case (0x0, 0xF) => Some(Rrca)
    case (0x1, 0x0) => Some(Stop) case (0x1, 0x1) => Some(Load16Imm) case (0x1, 0x2) => Some(LoadToMem) case (0x1, 0x3) => Some(Inc16)
    case (0x1, 0x4) => Some(Inc8) case (0x1, 0x6) => Some(Load8Imm) case (0x1, 0x7) => Some(Rla) case (0x1, 0x8) => Some(Jr)
    case (0x1, 0xA) => Some(LoadFrMem) case (0x1, 0xB) => Some(Dec16) case (0x1, 0xC) => Some(Inc8) case (0x1, 0xD) => Some(Dec8)
    case (0x1, 0xE) => Some(Load8Imm) case (0x1, 0xF) => Some(Rra)
    case (0x2, 0x0) => Some(JrNz) case (0x2, 0x1) => Some(Load16Imm) case (0x2, 0x2) => Some(LdiTo) case (0x2, 0x3) => Some(Inc16)
    case (0x2, 0x4) => Some(Inc8) case (0x2, 0x6) => Some(Load8Imm) case (0x2, 0x7) => Some(Daa) case (0x2, 0x8) => Some(JrZ)
    case (0x2, 0xA) => Some(LdiFr) case (0x2, 0xB) => Some(Dec16) case (0x2, 0xC) => Some(Inc8) case (0x2, 0xD) => Some(Dec8)
    case (0x2, 0xE) => Some(Load8Imm) case (0x2, 0xF) => Some(Cpl)
    case (0x3, 0x0) => Some(JrNc) case (0x3, 0x1) => Some(Load16Imm) case (0x3, 0x2) => Some(LddTo) case (0x3, 0x3) => Some(Inc16)
    case (0x3, 0x4) => Some(Inc8) case (0x3, 0x6) => Some(LoadImm) case (0x3, 0x7) => Some(Scf) case (0x3, 0x8) => Some(JrC)
    case (0x3, 0xA) => Some(LddFr) case (0x3, 0xB) => Some(Dec16) case (0x3, 0xC) => Some(Inc8) case (0x3, 0xD) => Some(Dec8)
    case (0x3, 0xE) => Some(Load8Imm) case (0x3, 0xF) => Some(Ccf)
    case (0x4, 0x0) => Some(Load8Reg) case (0x4, 0x1) => Some(Load8Reg) case (0x4, 0x2) => Some(Load8Reg) case (0x4, 0x3) => Some(Load8Reg)
    case (0x4, 0x4) => Some(Load8Reg) case (0x4, 0x5) => Some(Load8Reg) case (0x4, 0x6) => Some(Load8Reg) case (0x4, 0x7) => Some(Load8Reg)
    case (0x4, 0x8) => Some(Load8Reg) case (0x4, 0x9) => Some(Load8Reg) case (0x4, 0xA) => Some(Load8Reg) case (0x4, 0xB) => Some(Load8Reg)
    case (0x4, 0xC) => Some(Load8Reg) case (0x4, 0xD) => Some(Load8Reg) case (0x4, 0xE) => Some(Load8Reg) case (0x4, 0xF) => Some(Load8Reg)
    case (0x5, 0x0) => Some(Dec8) case (0x5, 0x1) => Some(Dec8) case (0x5, 0x2) => Some(Dec8) case (0x5, 0x3) => Some(Dec8)
    case (0x5, 0x4) => Some(Load8Reg) case (0x5, 0x5) => Some(Load8Reg) case (0x5, 0x6) => Some(Load8Reg) case (0x5, 0x7) => Some(Load8Reg)
    case (0x5, 0x8) => Some(Load8Reg) case (0x5, 0x9) => Some(Load8Reg) case (0x5, 0xA) => Some(Load8Reg) case (0x5, 0xB) => Some(Load8Reg)
    case (0x5, 0xC) => Some(Load8Reg) case (0x5, 0xD) => Some(Load8Reg) case (0x5, 0xE) => Some(Load8Reg) case (0x5, 0xF) => Some(Load8Reg)
    case (0x6, 0x0) => Some(Load8Reg) case (0x6, 0x1) => Some(Load8Reg) case (0x6, 0x2) => Some(Load8Reg) case (0x6, 0x3) => Some(Load8Reg)
    case (0x6, 0x4) => Some(Load8Reg) case (0x6, 0x5) => Some(Load8Reg) case (0x6, 0x6) => Some(Load8Reg) case (0x6, 0x7) => Some(Load8Reg)
    case (0x6, 0x8) => Some(Load8Reg) case (0x6, 0x9) => Some(Load8Reg) case (0x6, 0xA) => Some(Load8Reg) case (0x6, 0xB) => Some(Load8Reg)
    case (0x6, 0xC) => Some(Load8Reg) case (0x6, 0xD) => Some(Load8Reg) case (0x6, 0xE) => Some(Load8Reg) case (0x6, 0xF) => Some(Load8Reg)
    case (0x7, 0x0) => Some(Load8Reg) case (0x7, 0x1) => Some(Load8Reg) case (0x7, 0x2) => Some(Load8Reg) case (0x7, 0x3) => Some(Load8Reg)
    case (0x7, 0x4) => Some(Load8Reg) case (0x7, 0x5) => Some(Load8Reg) case (0x7, 0x6) => Some(Halt) case (0x7, 0x7) => Some(Load8Reg)
    case (0x7, 0x8) => Some(Load8Reg) case (0x7, 0x9) => Some(Load8Reg) case (0x7, 0xA) => Some(Load8Reg) case (0x7, 0xB) => Some(Load8Reg)
    case (0x7, 0xC) => Some(Load8Reg) case (0x7, 0xD) => Some(Load8Reg) case (0x7, 0xE) => Some(Load8Reg) case (0x7, 0xF) => Some(Load8Reg)
    case (0x8, 0x0) => Some(Add8) case (0x8, 0x1) => Some(Add8) case (0x8, 0x2) => Some(Add8) case (0x8, 0x3) => Some(Add8)
    case (0x8, 0x4) => Some(Add8) case (0x8, 0x5) => Some(Add8) case (0x8, 0x6) => Some(Add8) case (0x8, 0x7) => Some(Add8)
    case (0x8, 0x8) => Some(Adc8) case (0x8, 0x9) => Some(Adc8) case (0x8, 0xA) => Some(Adc8) case (0x8, 0xB) => Some(Adc8)
    case (0x8, 0xC) => Some(Adc8) case (0x8, 0xD) => Some(Adc8) case (0x8, 0xE) => Some(Adc8) case (0x8, 0xF) => Some(Adc8)
    case (0x9, 0x0) => Some(Sub8) case (0x9, 0x1) => Some(Sub8) case (0x9, 0x2) => Some(Sub8) case (0x9, 0x3) => Some(Sub8)
    case (0x9, 0x4) => Some(Sub8) case (0x9, 0x5) => Some(Sub8) case (0x9, 0x6) => Some(Sub8) case (0x9, 0x7) => Some(Sub8)
    case (0x9, 0x8) => Some(Sbc8) case (0x9, 0x9) => Some(Sbc8) case (0x9, 0xA) => Some(Sbc8) case (0x9, 0xB) => Some(Sbc8)
    case (0x9, 0xC) => Some(Sbc8) case (0x9, 0xD) => Some(Sbc8) case (0x9, 0xE) => Some(Sbc8) case (0x9, 0xF) => Some(Sbc8)
    case (0xA, 0x0) => Some(And8) case (0xA, 0x1) => Some(And8) case (0xA, 0x2) => Some(And8) case (0xA, 0x3) => Some(And8)
    case (0xA, 0x4) => Some(And8) case (0xA, 0x5) => Some(And8) case (0xA, 0x6) => Some(And8) case (0xA, 0x7) => Some(And8)
    case (0xA, 0x8) => Some(Xor8) case (0xA, 0x9) => Some(Xor8) case (0xA, 0xA) => Some(Xor8) case (0xA, 0xB) => Some(Xor8)
    case (0xA, 0xC) => Some(Xor8) case (0xA, 0xD) => Some(Xor8) case (0xA, 0xE) => Some(Xor8) case (0xA, 0xF) => Some(Xor8)
    case (0xB, 0x0) => Some(Or8) case (0xB, 0x1) => Some(Or8) case (0xB, 0x2) => Some(Or8) case (0xB, 0x3) => Some(Or8)
    case (0xB, 0x4) => Some(Or8) case (0xB, 0x5) => Some(Or8) case (0xB, 0x6) => Some(Or8) case (0xB, 0x7) => Some(Or8)
    case (0xB, 0x8) => Some(Cp8) case (0xB, 0x9) => Some(Cp8) case (0xB, 0xA) => Some(Cp8) case (0xB, 0xB) => Some(Cp8)
    case (0xB, 0xC) => Some(Cp8) case (0xB, 0xD) => Some(Cp8) case (0xB, 0xE) => Some(Cp8) case (0xB, 0xF) => Some(Cp8)
    case (0xC, 0x0) => Some(RetNz) case (0xC, 0x1) => Some(Pop) case (0xC, 0x4) => Some(CallNz) case (0xC, 0x5) => Some(Push)
    case (0xC, 0x6) => Some(Add8Imm) case (0xC, 0x7) => Some(Rst) case (0xC, 0x8) => Some(RetZ) case (0xC, 0x9) => Some(Ret)
    case (0xC, 0xB) => Some(Ext) case (0xC, 0xC) => Some(CallZ) case (0xC, 0xD) => Some(Call) case (0xC, 0xE) => Some(Adc8Imm)
    case (0xC, 0xF) => Some(Rst)
    case (0xD, 0x0) => Some(RetNc) case (0xD, 0x1) => Some(Pop) case (0xD, 0x3) => Some(Ill) case (0xD, 0x4) => Some(CallNc)
    case (0xD, 0x5) => Some(Push) case (0xD, 0x6) => Some(Sub8Imm) case (0xD, 0x7) => Some(Rst) case (0xD, 0x8) => Some(RetC)
    case (0xD, 0x9) => Some(Reti) case (0xD, 0xB) => Some(Ill) case (0xD, 0xC) => Some(CallC) case (0xD, 0xD) => Some(Ill)
    case (0xD, 0xE) => Some(SbcImm) case (0xD, 0xF) => Some(Rst)
    case (0xE, 0x0) => Some(LdhImmTo) case (0xE, 0x1) => Some(Pop) case (0xE, 0x2) => Some(LdhC) case (0xE, 0x3) => Some(Ill)
    case (0xE, 0x4) => Some(Ill) case (0xE, 0x5) => Some(Push) case (0xE, 0x6) => Some(And8Imm) case (0xE, 0x7) => Some(Rst)
    case (0xE, 0xA) => Some(LoadImmTo) case (0xE, 0xB) => Some(Ill) case (0xE, 0xC) => Some(Ill) case (0xE, 0xD) => Some(Ill)
    case (0xE, 0xE) => Some(Xor8Imm) case (0xE, 0xF) => Some(Rst)
    case (0xF, 0x0) => Some(LdhImmFr) case (0xF, 0x1) => Some(Pop) case (0xF, 0x2) => Some(Ill) case (0xF, 0x3) => Some(IntSwitch)
    case (0xF, 0x4) => Some(Ill) case (0xF, 0x5) => Some(Push) case (0xF, 0x6) => Some(Or8Imm) case (0xF, 0x7) => Some(Rst)
    case (0xF, 0x8) => Some(LoadSpWithOffset) case (0xF, 0x9) => Some(LoadToSp) case (0xF, 0xA) => Some(LoadImmFr) case (0xF, 0xB) => Some(IntSwitch)
    case (0xF, 0xC) => Some(Ill) case (0xF, 0xD) => Some(Ill) case (0xF, 0xE) => Some(Cp8Imm) case (0xF, 0xF) => Some(Rst)
    case _ => None
  }

  /** The extended dispatch table: the handler bound to `opcode`, or None. */
  function ExtOps(opcode: int): (h: Option<ExtHandler>)
    ensures h.Some? ==> 0 <= opcode < 0x100
  {
    if 0 <= opcode < 0x100 then ExtGrid(opcode / 16, opcode % 16) else None
  }

  /** The entries of the extended table's dictionary literal on the opcode grid. */
  function ExtGrid(high: int, low: int): Option<ExtHandler>
  {
    match (high, low)
    case (0x0, 0x0) => Some(Rlc) case (0x0, 0x1) => Some(Rlc) case (0x0, 0x2) => Some(Rlc) case (0x0, 0x3) => Some(Rlc)
    case (0x0, 0x4) => Some(Rlc) case (0x0, 0x5) => Some(Rlc) case (0x0, 0x6) => Some(Rlc) case (0x0, 0x7) => Some(Rlc)
    case (0x0, 0x8) => Some(Rrc) case (0x0, 0x9) => Some(Rrc) case (0x0, 0xA) => Some(Rrc) case (0x0, 0xB) => Some(Rrc)
    case (0x0, 0xC) => Some(Rrc) case (0x0, 0xD) => Some(Rrc) case (0x0, 0xE) => Some(Rrc) case (0x0, 0xF) => Some(Rrc)
    case (0x1, 0x0) => Some(Rlc) case (0x1, 0x1) => Some(Rlc) case (0x1, 0x2) => Some(Rlc) case (0x1, 0x3) => Some(Rlc)
    case (0x1, 0x4) => Some(Rlc) case (0x1, 0x5) => Some(Rlc) case (0x1, 0x6) => Some(Rlc) case (0x1, 0x7) => Some(Rlc)
    case (0x1, 0x8) => Some(Rrc) case (0x1, 0x9) => Some(Rrc) case (0x1, 0xA) => Some(Rrc) case (0x1, 0xB) => Some(Rrc)
    case (0x1, 0xC) => Some(Rrc) case (0x1, 0xD) => Some(Rrc) case (0x1, 0xE) => Some(Rrc) case (0x1, 0xF) => Some(Rrc)
    case (0x2, 0x0) => Some(Sla) case (0x2, 0x1) => Some(Sla) case (0x2, 0x2) => Some(Sla) case (0x2, 0x3) => Some(Sla)
    case (0x2, 0x4) => Some(Sla) case (0x2, 0x5) => Some(Sla) case (0x2, 0x6) => Some(Sla) case (0x2, 0x7) => Some(Sla)
    case (0x2, 0x8) => Some(Sra) case (0x2, 0x9) => Some(Sra) case (0x2, 0xA) => Some(Sra) case (0x2, 0xB) => Some(Sra)
    case (0x2, 0xC) => Some(Sra) case (0x2, 0xD) => Some(Sra) case (0x2, 0xE) => Some(Sra) case (0x2, 0xF) => Some(Sra)
    case (0x3, 0x0) => Some(Swap) case (0x3, 0x1) => Some(Swap) case (0x3, 0x2) => Some(Swap) case (0x3, 0x3) => Some(Swap)
    case (0x3, 0x4) => Some(Swap) case (0x3, 0x5) => Some(Swap) case (0x3, 0x6) => Some(Swap) case (0x3, 0x7) => Some(Swap)
    case (0x3, 0x8) => Some(Srl) case (0x3, 0x9) => Some(Srl) case (0x3, 0xA) => Some(Srl) case (0x3, 0xB) => Some(Srl)
    case (0x3, 0xC) => Some(Srl) case (0x3, 0xD) => Some(Srl) case (0x3, 0xE) => Some(Srl) case (0x3, 0xF) => Some(Srl)
    case (0x4, 0x0) => Some(Bit) case (0x4, 0x1) => Some(Bit) case (0x4, 0x2) => Some(Bit) case (0x4, 0x3) => Some(Bit)
    case (0x4, 0x4) => Some(Bit) case (0x4, 0x5) => Some(Bit) case (0x4, 0x6) => Some(Bit) case (0x4, 0x7) => Some(Bit)
    case (0x4, 0x8) => Some(Bit) case (0x4, 0x9) => Some(Bit) case (0x4, 0xA) => Some(Bit) case (0x4, 0xB) => Some(Bit)
    case (0x4, 0xC) => Some(Bit) case (0x4, 0xD) => Some(Bit) case (0x4, 0xE) => Some(Bit) case (0x4, 0xF) => Some(Bit)
    case (0x5, 0x0) => Some(Bit) case (0x5, 0x1) => Some(Bit) case (0x5, 0x2) => Some(Bit) case (0x5, 0x3) => Some(Bit)
    case (0x5, 0x4) => Some(Bit) case (0x5, 0x5) => Some(Bit) case (0x5, 0x6) => Some(Bit) case (0x5, 0x7) => Some(Bit)
    case (0x5, 0x8) => Some(Bit) case (0x5, 0x9) => Some(Bit) case (0x5, 0xA) => Some(Bit) case (0x5, 0xB) => Some(Bit)
    case (0x5, 0xC) => Some(Bit) case (0x5, 0xD) => Some(Bit) case (0x5, 0xE) => Some(Bit) case (0x5, 0xF) => Some(Bit)
    case (0x6, 0x0) => Some(Bit) case (0x6, 0x1) => Some(Bit) case (0x6, 0x2) => Some(Bit) case (0x6, 0x3) => Some(Bit)
    case (0x6, 0x4) => Some(Bit) case (0x6, 0x5) => Some(Bit) case (0x6, 0x6) => Some(Bit) case (0x6, 0x7) => Some(Bit)
    case (0x6, 0x8) => Some(Bit) case (0x6, 0x9) => Some(Bit) case (0x6, 0xA) => Some(Bit) case (0x6, 0xB) => Some(Bit)
    case (0x6, 0xC) => Some(Bit) case (0x6, 0xD) => Some(Bit) case (0x6, 0xE) => Some(Bit) case (0x6, 0xF) => Some(Bit)
    case (0x7, 0x0) => Some(Bit) case (0x7, 0x1) => Some(Bit) case (0x7, 0x2) => Some(Bit) case (0x7, 0x3) => Some(Bit)
    case (0x7, 0x4) => Some(Bit) case (0x7, 0x5) => Some(Bit) case (0x7, 0x6) => Some(Bit) case (0x7, 0x7) => Some(Bit)
    case (0x7, 0x8) => Some(Bit) case (0x7, 0x9) => Some(Bit) case (0x7, 0xA) => Some(Bit) case (0x7, 0xB) => Some(Bit)
    case (0x7, 0xC) => Some(Bit) case (0x7, 0xD) => Some(Bit) case (0x7, 0xE) => Some(Bit) case (0x7, 0xF) => Some(Bit)
    case (0x8, 0x0) => Some(Res) case (0x8, 0x1) => Some(Res) case (0x8, 0x2) => Some(Res) case (0x8, 0x3) => Some(Res)
    case (0x8, 0x4) => Some(Res) case (0x8, 0x5) => Some(Res) case (0x8, 0x6) => Some(Res) case (0x8, 0x7) => Some(Res)
    case (0x8, 0x8) => Some(Res) case (0x8, 0x9) => Some(Res) case (0x8, 0xA) => Some(Res) case (0x8, 0xB) => Some(Res)
    case (0x8, 0xC) => Some(Res) case (0x8, 0xD) => Some(Res) case (0x8, 0xE) => Some(Res) case (0x8, 0xF) => Some(Res)
    case (0x9, 0x0) => Some(Res) case (0x9, 0x1) => Some(Res) case (0x9, 0x2) => Some(Res) case (0x9, 0x3) => Some(Res)
    case (0x9, 0x4) => Some(Res) case (0x9, 0x5) => Some(Res) case (0x9, 0x6) => Some(Res) case (0x9, 0x7) => Some(Res)
    case (0x9, 0x8) => Some(Res) case (0x9, 0x9) => Some(Res) case (0x9, 0xA) => Some(Res) case (0x9, 0xB) => Some(Res)
    case (0x9, 0xC) => Some(Res) case (0x9, 0xD) => Some(Res) case (0x9, 0xE) => Some(Res) case (0x9, 0xF) => Some(Res)
    case (0xA, 0x0) => Some(Res) case (0xA, 0x1) => Some(Res) case (0xA, 0x2) => Some(Res) case (0xA, 0x3) => Some(Res)
    case (0xA, 0x4) => Some(Res) case (0xA, 0x5) => Some(Res) case (0xA, 0x6) => Some(Res) case (0xA, 0x7) => Some(Res)
    case (0xA, 0x8) => Some(Res) case (0xA, 0x9) => Some(Res) case (0xA, 0xA) => Some(Res) case (0xA, 0xB) => Some(Res)
    case (0xA, 0xC) => Some(Res) case (0xA, 0xD) => Some(Res) case (0xA, 0xE) => Some(Res) case (0xA, 0xF) => Some(Res)
    case (0xB, 0x0) => Some(Res) case (0xB, 0x1) => Some(Res) case (0xB, 0x2) => Some(Res) case (0xB, 0x3) => Some(Res)
    case (0xB, 0x4) => Some(Res) case (0xB, 0x5) => Some(Res) case (0xB, 0x6) => Some(Res) case (0xB, 0x7) => Some(Res)
    case (0xB, 0x8) => Some(Res) case (0xB, 0x9) => Some(Res) case (0xB, 0xA) => Some(Res) case (0xB, 0xB) => Some(Res)
    case (0xB, 0xC) => Some(Res) case (0xB, 0xD) => Some(Res) case (0xB, 0xE) => Some(Res) case (0xB, 0xF) => Some(Res)
    case (0xC, 0x0) => Some(Set) case (0xC, 0x1) => Some(Set) case (0xC, 0x2) => Some(Set) case (0xC, 0x3) => Some(Set)
    case (0xC, 0x4) => Some(Set) case (0xC, 0x5) => Some(Set) case (0xC, 0x6) => Some(Set) case (0xC, 0x7) => Some(Set)
    case (0xC, 0x8) => Some(Set) case (0xC, 0x9) => Some(Set) case (0xC, 0xA) => Some(Set) case (0xC, 0xB) => Some(Set)
    case (0xC, 0xC) => Some(Set) case (0xC, 0xD) => Some(Set) case (0xC, 0xE) => Some(Set) case (0xC, 0xF) => Some(Set)
    case (0xD, 0x0) => Some(Set) case (0xD, 0x1) => Some(Set) case (0xD, 0x2) => Some(Set) case (0xD, 0x3) => Some(Set)
    case (0xD, 0x4) => Some(Set) case (0xD, 0x5) => Some(Set) case (0xD, 0x6) => Some(Set) case (0xD, 0x7) => Some(Set)
    case (0xD, 0x8) => Some(Set) case (0xD, 0x9) => Some(Set) case (0xD, 0xA) => Some(Set) case (0xD, 0xB) => Some(Set)
    case (0xD, 0xC) => Some(Set) case (0xD, 0xD) => Some(Set) case (0xD, 0xE) => Some(Set) case (0xD, 0xF) => Some(Set)
    case (0xE, 0x0) => Some(Set) case (0xE, 0x1) => Some(Set) case (0xE, 0x2) => Some(Set) case (0xE, 0x3) => Some(Set)
    case (0xE, 0x4) => Some(Set) case (0xE, 0x5) => Some(Set) case (0xE, 0x6) => Some(Set) case (0xE, 0x7) => Some(Set)
    case (0xE, 0x8) => Some(Set) case (0xE, 0x9) => Some(Set) case (0xE, 0xA) => Some(Set) case (0xE, 0xB) => Some(Set)
    case (0xE, 0xC) => Some(Set) case (0xE, 0xD) => Some(Set) case (0xE, 0xE) => Some(Set) case (0xE, 0xF) => Some(Set)
    case (0xF, 0x0) => Some(Set) case (0xF, 0x1) => Some(Set) case (0xF, 0x2) => Some(Set) case (0xF, 0x3) => Some(Set)
    case (0xF, 0x4) => Some(Set) case (0xF, 0x5) => Some(Set) case (0xF, 0x6) => Some(Set) case (0xF, 0x7) => Some(Set)
    case (0xF, 0x8) => Some(Set) case (0xF, 0x9) => Some(Set) case (0xF, 0xA) => Some(Set) case (0xF, 0xB) => Some(Set)
    case (0xF, 0xC) => Some(Set) case (0xF, 0xD) => Some(Set) case (0xF, 0xE) => Some(Set) case (0xF, 0xF) => Some(Set)
    case _ => None
  }

  // ------------------------------------------------------------------
  // The tables against the opcode layout
  // ------------------------------------------------------------------

  /** The eight ALU operations, in the order bits 5..3 of 0b10xxxyyy select them. */
  function AluHandler(k: nat): Handler
    requires k < 8
  {
    [Add8, Adc8, Sub8, Sbc8, And8, Xor8, Or8, Cp8][k]
  }

  /** The extended table as bit fields: in the low quarter bits 5..3 pick
      the rotate or shift (rotate-with-carry twice, as the table has it), in
      the other three quarters bits 7..6 pick bit-test, reset or set. */
  function ExtReference(opcode: int): ExtHandler
    requires 0 <= opcode < 256
  {
    if opcode < 0x40 then [Rlc, Rrc, Rlc, Rrc, Sla, Sra, Swap, Srl][opcode / 8]
    else [Bit, Res, Set][opcode / 0x40 - 1]
  }

  /** The extended table has an entry for every byte and for nothing else,
      and it agrees with the bit-field decode. */
  lemma ExtTableIsStructural(opcode: int)
    ensures ExtOps(opcode).Some? <==> 0 <= opcode < 256
    ensures 0 <= opcode < 256 ==> ExtOps(opcode) == Some(ExtReference(opcode))
  {
  }

  /** Single entries of the main table. */
  lemma TableEntries()
    ensures Ops(0x00) == Some(Nop) && Ops(0x10) == Some(Stop)
    ensures Ops(0x76) == Some(Halt) && Ops(0xCB) == Some(Ext)
    ensures Ops(0x36) == Some(LoadImm)
    ensures forall op :: op in {0x06, 0x16, 0x26, 0x0E, 0x1E, 0x2E, 0x3E} ==> Ops(op) == Some(Load8Imm)
  {
  }

  /** The register-to-register block 0b01dddsss: a load, except that the
      (memory, memory) pair 0x76 is `halt` and 0x50..0x53 were overwritten
      by `dec8`. */
  lemma RegisterLoadBlock(dst: int, src: int)
    requires 0 <= dst < 8 && 0 <= src < 8
    ensures Ops(0x40 + 8 * dst + src) ==
      Some(if dst == 6 && src == 6 then Halt else if dst == 2 && src < 4 then Dec8 else Load8Reg)
  {
  }

  /** The ALU block 0b10kkkyyy: operation k on operand y. */
  lemma AluBlock(opcode: int)
    requires 0x80 <= opcode < 0xC0
    ensures Ops(opcode) == Some(AluHandler((opcode - 0x80) / 8))
  {
  }

  /** The twelve opcodes gb/cpu.py:143-145 bind to `ill`: the eleven the
      architecture leaves undefined, and 0xF2, which the architecture defines
      as the load of A from (0xFF00 + C). */
  const ILLEGAL_OPCODES: set<int> := {0xF2, 0xD3, 0xE3, 0xE4, 0xF4, 0xDB, 0xEB, 0xEC, 0xFC, 0xDD, 0xED, 0xFD}

  /** Exactly the twelve opcodes of `ILLEGAL_OPCODES` map to `ill`. */
  lemma IllegalOpcodes(opcode: int)
    ensures Ops(opcode) == Some(Ill) <==> opcode in ILLEGAL_OPCODES
  {
  }

  /** Opcodes the table does not list: looking them up fails. */
  lemma UnlistedOpcodes()
    ensures Ops(0xC3) == None && Ops(0x09) == None && Ops(0x05) == None && Ops(0x15) == None
    ensures Ops(0x25) == None && Ops(0x35) == None && Ops(0xE8) == None && Ops(0xE9) == None
  {
  }

  // ------------------------------------------------------------------
  // The step
  // ------------------------------------------------------------------

  /** What one call of `execute_instr` did: nothing (the CPU is parked),
      called the handler bound to the fetched opcode, or raised. */
  datatype Step = Parked | Dispatched(opcode: int, handler: Handler) | Raised(error: Error)

  /** Stopped, or halted with interrupts enabled: the step does nothing. */
  predicate Parks(stopped: bool, halted: bool, interruptsEnabled: bool)
  {
    (halted && interruptsEnabled) || stopped
  }

  /** `pc` after the fetch: one further, wrapping at 0x10000, unless halted. */
  function NextPc(pc: int, halted: bool): int
  {
    if halted then pc else (pc + 1) % 0x10000
  }

  /** `self.ops[opcode](opcode)`: the bound handler, or KeyError. */
  function Dispatch(opcode: int): (s: Step)
    ensures s.Dispatched? <==> Ops(opcode).Some?
    ensures s.Dispatched? ==> s.opcode == opcode && s.handler == Ops(opcode).value
    ensures s.Raised? ==> s.error == KeyError
    ensures !s.Parked?
  {
    match Ops(opcode)
    case None => Raised(KeyError)
    case Some(h) => Dispatched(opcode, h)
  }

  /** One step as a function of the flags, `pc` and what a bus read at `pc`
      returns: the step and the new `pc`. */
  function StepOutcome(pc: int, stopped: bool, halted: bool, interruptsEnabled: bool, fetched: Result<byte>): (r: (Step, int))
    ensures r.0.Parked? <==> Parks(stopped, halted, interruptsEnabled)
    ensures r.0.Dispatched? ==> fetched == Ok(r.0.opcode) && Ops(r.0.opcode) == Some(r.0.handler)
    ensures r.0.Raised? ==> fetched.Err? || Ops(fetched.value).None?
    ensures r.1 != pc ==> fetched.Ok? && !r.0.Parked? && !halted
    ensures 0 <= pc < 0x10000 ==> 0 <= r.1 < 0x10000
  {
    if Parks(stopped, halted, interruptsEnabled) then (Parked, pc)
    else match fetched
      case Err(e) => (Raised(e), pc)
      case Ok(opcode) => (Dispatch(opcode), NextPc(pc, halted))
  }

  /** A parked CPU neither moves nor dispatches; a running one advances by
      one modulo 0x10000; a halted one with interrupts disabled stays at
      `pc` and so fetches the same byte on every step; a failed fetch
      leaves `pc` where it was. */
  lemma StepCases(pc: int, stopped: bool, halted: bool, interruptsEnabled: bool, fetched: Result<byte>)
    requires 0 <= pc < 0x10000
    ensures var (s, pc') := StepOutcome(pc, stopped, halted, interruptsEnabled, fetched);
      && 0 <= pc' < 0x10000
      && (Parks(stopped, halted, interruptsEnabled) ==> s == Parked && pc' == pc)
      && (!Parks(stopped, halted, interruptsEnabled) && fetched.Err? ==> s == Raised(fetched.error) && pc' == pc)
      && (!Parks(stopped, halted, interruptsEnabled) && fetched.Ok? ==>
            s == Dispatch(fetched.value) && pc' == (if halted then pc else if pc == 0xFFFF then 0 else pc + 1))
  {
  }

  class Cpu {
    var mmu: Mmu
    var pc: int
    var sp: int
    var gpRegs: map<int, int>
    var f: int
    var stopped: bool
    var halted: bool
    var interruptsEnabled: bool

    /** A CPU on bus `mmu`: counters, flags byte and registers 0, running. */
    constructor (mmu: Mmu)
      ensures this.mmu == mmu
      ensures pc == 0 && sp == 0 && f == 0 && gpRegs == INITIAL_GP_REGS
      ensures !stopped && !halted && !interruptsEnabled
    {
      this.mmu := mmu;
      pc, sp := 0, 0;
      gpRegs := INITIAL_GP_REGS;
      f := 0;
      stopped, halted, interruptsEnabled := false, false, false;
    }

    /** `execute_instr`: unless parked, one bus read at `pc` (which may clear
        the boot overlay), the `pc` update, and the dispatch. */
    method ExecuteInstr() returns (s: Step)
      requires mmu.Valid()
      modifies this`pc, mmu`inBios
      ensures mmu.Valid()
      ensures (s, pc) == StepOutcome(old(pc), stopped, halted, interruptsEnabled, mmu.ReadAt(old(pc), old(mmu.inBios)))
      ensures mmu.inBios ==
        if Parks(stopped, halted, interruptsEnabled) then old(mmu.inBios) else BootFlagAfter(old(pc), old(mmu.inBios))
    {
      if (halted && interruptsEnabled) || stopped {
        return Parked;
      }
      var fetched := mmu.Read(pc);
      if fetched.Err? {
        return Raised(fetched.error);
      }
      var opcode := fetched.value;
      if !halted {
        pc := (pc + 1) % 0x10000;
      }
      s := Dispatch(opcode);
    }
  }
}
