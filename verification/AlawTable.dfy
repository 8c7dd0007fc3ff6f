/**
 * The expansion table of src/a2s.h, and the proof that it is the A-law of section 3 of ITU-T G.711.
 * Samples are 16-bit words, read as unsigned numbers.
 */
module AlawTable {
  import opened Octets

  /** a2s, eight entries a row. */
  const TABLE: seq<seq<nat>> := [
    [0xEA80, 0xEB80, 0xE880, 0xE980, 0xEE80, 0xEF80, 0xEC80, 0xED80],
    [0xE280, 0xE380, 0xE080, 0xE180, 0xE680, 0xE780, 0xE480, 0xE580],
    [0xF540, 0xF5C0, 0xF440, 0xF4C0, 0xF740, 0xF7C0, 0xF640, 0xF6C0],
    [0xF140, 0xF1C0, 0xF040, 0xF0C0, 0xF340, 0xF3C0, 0xF240, 0xF2C0],
    [0xAA00, 0xAE00, 0xA200, 0xA600, 0xBA00, 0xBE00, 0xB200, 0xB600],
    [0x8A00, 0x8E00, 0x8200, 0x8600, 0x9A00, 0x9E00, 0x9200, 0x9600],
    [0xD500, 0xD700, 0xD100, 0xD300, 0xDD00, 0xDF00, 0xD900, 0xDB00],
    [0xC500, 0xC700, 0xC100, 0xC300, 0xCD00, 0xCF00, 0xC900, 0xCB00],
    [0xFEA8, 0xFEB8, 0xFE88, 0xFE98, 0xFEE8, 0xFEF8, 0xFEC8, 0xFED8],
    [0xFE28, 0xFE38, 0xFE08, 0xFE18, 0xFE68, 0xFE78, 0xFE48, 0xFE58],
    [0xFFA8, 0xFFB8, 0xFF88, 0xFF98, 0xFFE8, 0xFFF8, 0xFFC8, 0xFFD8],
    [0xFF28, 0xFF38, 0xFF08, 0xFF18, 0xFF68, 0xFF78, 0xFF48, 0xFF58],
    [0xFAA0, 0xFAE0, 0xFA20, 0xFA60, 0xFBA0, 0xFBE0, 0xFB20, 0xFB60],
    [0xF8A0, 0xF8E0, 0xF820, 0xF860, 0xF9A0, 0xF9E0, 0xF920, 0xF960],
    [0xFD50, 0xFD70, 0xFD10, 0xFD30, 0xFDD0, 0xFDF0, 0xFD90, 0xFDB0],
    [0xFC50, 0xFC70, 0xFC10, 0xFC30, 0xFCD0, 0xFCF0, 0xFC90, 0xFCB0],
    [0x1580, 0x1480, 0x1780, 0x1680, 0x1180, 0x1080, 0x1380, 0x1280],
    [0x1D80, 0x1C80, 0x1F80, 0x1E80, 0x1980, 0x1880, 0x1B80, 0x1A80],
    [0x0AC0, 0x0A40, 0x0BC0, 0x0B40, 0x08C0, 0x0840, 0x09C0, 0x0940],
    [0x0EC0, 0x0E40, 0x0FC0, 0x0F40, 0x0CC0, 0x0C40, 0x0DC0, 0x0D40],
    [0x5600, 0x5200, 0x5E00, 0x5A00, 0x4600, 0x4200, 0x4E00, 0x4A00],
    [0x7600, 0x7200, 0x7E00, 0x7A00, 0x6600, 0x6200, 0x6E00, 0x6A00],
    [0x2B00, 0x2900, 0x2F00, 0x2D00, 0x2300, 0x2100, 0x2700, 0x2500],
    [0x3B00, 0x3900, 0x3F00, 0x3D00, 0x3300, 0x3100, 0x3700, 0x3500],
    [0x0158, 0x0148, 0x0178, 0x0168, 0x0118, 0x0108, 0x0138, 0x0128],
    [0x01D8, 0x01C8, 0x01F8, 0x01E8, 0x0198, 0x0188, 0x01B8, 0x01A8],
    [0x0058, 0x0048, 0x0078, 0x0068, 0x0018, 0x0008, 0x0038, 0x0028],
    [0x00D8, 0x00C8, 0x00F8, 0x00E8, 0x0098, 0x0088, 0x00B8, 0x00A8],
    [0x0560, 0x0520, 0x05E0, 0x05A0, 0x0460, 0x0420, 0x04E0, 0x04A0],
    [0x0760, 0x0720, 0x07E0, 0x07A0, 0x0660, 0x0620, 0x06E0, 0x06A0],
    [0x02B0, 0x0290, 0x02F0, 0x02D0, 0x0230, 0x0210, 0x0270, 0x0250],
    [0x03B0, 0x0390, 0x03F0, 0x03D0, 0x0330, 0x0310, 0x0370, 0x0350]
  ]

  /** A code with the even bits and the sign inverted, as it is transmitted. */
  function Flip(v: byte): byte {
    v ^ 0xd5
  }

  /** a2s[code]. */
  function Expand(code: byte): nat {
    var row := TABLE[((code >> 3) & 0x1F) as nat];
    if |row| == 8 then row[(code & 0x07) as nat] else 0
  }

  // ---- The law -------------------------------------------------------------------------------

  function Scale(segment: nat): nat {
    match segment
    case 0 | 1 => 8
    case 2 => 16
    case 3 => 32
    case 4 => 64
    case 5 => 128
    case 6 => 256
    case _ => 512
  }

  /** The magnitude of step u of a half: 16 steps in each of 8 segments, each twice as coarse as the last. */
  function Level(u: nat): nat {
    if u < 16 then 16 * u + 8 else (2 * (u % 16) + 33) * Scale(u / 16)
  }

  /** The sample of a code before it is flipped; the upper half is negative, in two's complement. */
  function Sample(v: nat): int {
    if v < 128 then Level(v) else 0x10000 - Level(v - 128)
  }

  predicate IsRow(base: byte, row: seq<nat>) {
    && |row| == 8
    && row[0] == Sample(Flip(base) as nat) && row[1] == Sample(Flip(base | 1) as nat)
    && row[2] == Sample(Flip(base | 2) as nat) && row[3] == Sample(Flip(base | 3) as nat)
    && row[4] == Sample(Flip(base | 4) as nat) && row[5] == Sample(Flip(base | 5) as nat)
    && row[6] == Sample(Flip(base | 6) as nat) && row[7] == Sample(Flip(base | 7) as nat)
  }

  lemma Row0()
    ensures IsRow(0x00, TABLE[0])
  {
  }

  lemma Row1()
    ensures IsRow(0x08, TABLE[1])
  {
  }

  lemma Row2()
    ensures IsRow(0x10, TABLE[2])
  {
  }

  lemma Row3()
    ensures IsRow(0x18, TABLE[3])
  {
  }

  lemma Row4()
    ensures IsRow(0x20, TABLE[4])
  {
  }

  lemma Row5()
    ensures IsRow(0x28, TABLE[5])
  {
  }

  lemma Row6()
    ensures IsRow(0x30, TABLE[6])
  {
  }

  lemma Row7()
    ensures IsRow(0x38, TABLE[7])
  {
  }

  lemma Row8()
    ensures IsRow(0x40, TABLE[8])
  {
  }

  lemma Row9()
    ensures IsRow(0x48, TABLE[9])
  {
  }

  lemma Row10()
    ensures IsRow(0x50, TABLE[10])
  {
  }

  lemma Row11()
    ensures IsRow(0x58, TABLE[11])
  {
  }

  lemma Row12()
    ensures IsRow(0x60, TABLE[12])
  {
  }

  lemma Row13()
    ensures IsRow(0x68, TABLE[13])
  {
  }

  lemma Row14()
    ensures IsRow(0x70, TABLE[14])
  {
  }

  lemma Row15()
    ensures IsRow(0x78, TABLE[15])
  {
  }

  lemma Row16()
    ensures IsRow(0x80, TABLE[16])
  {
  }

  lemma Row17()
    ensures IsRow(0x88, TABLE[17])
  {
  }

  lemma Row18()
    ensures IsRow(0x90, TABLE[18])
  {
  }

  lemma Row19()
    ensures IsRow(0x98, TABLE[19])
  {
  }

  lemma Row20()
    ensures IsRow(0xa0, TABLE[20])
  {
  }

  lemma Row21()
    ensures IsRow(0xa8, TABLE[21])
  {
  }

  lemma Row22()
    ensures IsRow(0xb0, TABLE[22])
  {
  }

  lemma Row23()
    ensures IsRow(0xb8, TABLE[23])
  {
  }

  lemma Row24()
    ensures IsRow(0xc0, TABLE[24])
  {
  }

  lemma Row25()
    ensures IsRow(0xc8, TABLE[25])
  {
  }

  lemma Row26()
    ensures IsRow(0xd0, TABLE[26])
  {
  }

  lemma Row27()
    ensures IsRow(0xd8, TABLE[27])
  {
  }

  lemma Row28()
    ensures IsRow(0xe0, TABLE[28])
  {
  }

  lemma Row29()
    ensures IsRow(0xe8, TABLE[29])
  {
  }

  lemma Row30()
    ensures IsRow(0xf0, TABLE[30])
  {
  }

  lemma Row31()
    ensures IsRow(0xf8, TABLE[31])
  {
  }


  lemma RowsFrom0(r: byte)
    requires 0 <= r <= 7
    ensures IsRow(r << 3, TABLE[r as nat])
  {
    match r
    case 0 => Row0();
    case 1 => Row1();
    case 2 => Row2();
    case 3 => Row3();
    case 4 => Row4();
    case 5 => Row5();
    case 6 => Row6();
    case _ =>
      assert r == 7;
      Row7();
  }

  lemma RowsFrom8(r: byte)
    requires 8 <= r <= 15
    ensures IsRow(r << 3, TABLE[r as nat])
  {
    match r
    case 8 => Row8();
    case 9 => Row9();
    case 10 => Row10();
    case 11 => Row11();
    case 12 => Row12();
    case 13 => Row13();
    case 14 => Row14();
    case _ =>
      assert r == 15;
      Row15();
  }

  lemma RowsFrom16(r: byte)
    requires 16 <= r <= 23
    ensures IsRow(r << 3, TABLE[r as nat])
  {
    match r
    case 16 => Row16();
    case 17 => Row17();
    case 18 => Row18();
    case 19 => Row19();
    case 20 => Row20();
    case 21 => Row21();
    case 22 => Row22();
    case _ =>
      assert r == 23;
      Row23();
  }

  lemma RowsFrom24(r: byte)
    requires 24 <= r <= 31
    ensures IsRow(r << 3, TABLE[r as nat])
  {
    match r
    case 24 => Row24();
    case 25 => Row25();
    case 26 => Row26();
    case 27 => Row27();
    case 28 => Row28();
    case 29 => Row29();
    case 30 => Row30();
    case _ =>
      assert r == 31;
      Row31();
  }

  lemma Recombine(i: byte)
    ensures (i >> 3) & 0x1F < 32 && i & 0x07 < 8 && (((i >> 3) & 0x1F) << 3) | (i & 0x07) == i
    ensures i & 0x07 == 0 ==> ((i >> 3) & 0x1F) << 3 == i
  {
  }

  /** Every entry of the table is the sample the law gives for its code. */
  lemma TableIsAlaw(code: byte)
    ensures Expand(code) == Sample(Flip(code) as nat)
  {
    var r, c := (code >> 3) & 0x1F, code & 0x07;
    Recombine(code);
    if r < 8 {
      RowsFrom0(r);
    } else if r < 16 {
      RowsFrom8(r);
    } else if r < 24 {
      RowsFrom16(r);
    } else {
      RowsFrom24(r);
    }
    match c
    case 0 =>
    case 1 =>
    case 2 =>
    case 3 =>
    case 4 =>
    case 5 =>
    case 6 =>
    case _ => assert c == 7;
  }
}
