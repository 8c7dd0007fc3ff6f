/** The table of the source, and the proof that its 256 entries are bit-serial remainders. */
module CrcTable {
  import opened CrcRegister
  import opened Octets

  /** ppp_crc16_table, eight entries a row. */
  const TABLE: seq<seq<bv16>> := [
    [0x0000, 0x1189, 0x2312, 0x329b, 0x4624, 0x57ad, 0x6536, 0x74bf],
    [0x8c48, 0x9dc1, 0xaf5a, 0xbed3, 0xca6c, 0xdbe5, 0xe97e, 0xf8f7],
    [0x1081, 0x0108, 0x3393, 0x221a, 0x56a5, 0x472c, 0x75b7, 0x643e],
    [0x9cc9, 0x8d40, 0xbfdb, 0xae52, 0xdaed, 0xcb64, 0xf9ff, 0xe876],
    [0x2102, 0x308b, 0x0210, 0x1399, 0x6726, 0x76af, 0x4434, 0x55bd],
    [0xad4a, 0xbcc3, 0x8e58, 0x9fd1, 0xeb6e, 0xfae7, 0xc87c, 0xd9f5],
    [0x3183, 0x200a, 0x1291, 0x0318, 0x77a7, 0x662e, 0x54b5, 0x453c],
    [0xbdcb, 0xac42, 0x9ed9, 0x8f50, 0xfbef, 0xea66, 0xd8fd, 0xc974],
    [0x4204, 0x538d, 0x6116, 0x709f, 0x0420, 0x15a9, 0x2732, 0x36bb],
    [0xce4c, 0xdfc5, 0xed5e, 0xfcd7, 0x8868, 0x99e1, 0xab7a, 0xbaf3],
    [0x5285, 0x430c, 0x7197, 0x601e, 0x14a1, 0x0528, 0x37b3, 0x263a],
    [0xdecd, 0xcf44, 0xfddf, 0xec56, 0x98e9, 0x8960, 0xbbfb, 0xaa72],
    [0x6306, 0x728f, 0x4014, 0x519d, 0x2522, 0x34ab, 0x0630, 0x17b9],
    [0xef4e, 0xfec7, 0xcc5c, 0xddd5, 0xa96a, 0xb8e3, 0x8a78, 0x9bf1],
    [0x7387, 0x620e, 0x5095, 0x411c, 0x35a3, 0x242a, 0x16b1, 0x0738],
    [0xffcf, 0xee46, 0xdcdd, 0xcd54, 0xb9eb, 0xa862, 0x9af9, 0x8b70],
    [0x8408, 0x9581, 0xa71a, 0xb693, 0xc22c, 0xd3a5, 0xe13e, 0xf0b7],
    [0x0840, 0x19c9, 0x2b52, 0x3adb, 0x4e64, 0x5fed, 0x6d76, 0x7cff],
    [0x9489, 0x8500, 0xb79b, 0xa612, 0xd2ad, 0xc324, 0xf1bf, 0xe036],
    [0x18c1, 0x0948, 0x3bd3, 0x2a5a, 0x5ee5, 0x4f6c, 0x7df7, 0x6c7e],
    [0xa50a, 0xb483, 0x8618, 0x9791, 0xe32e, 0xf2a7, 0xc03c, 0xd1b5],
    [0x2942, 0x38cb, 0x0a50, 0x1bd9, 0x6f66, 0x7eef, 0x4c74, 0x5dfd],
    [0xb58b, 0xa402, 0x9699, 0x8710, 0xf3af, 0xe226, 0xd0bd, 0xc134],
    [0x39c3, 0x284a, 0x1ad1, 0x0b58, 0x7fe7, 0x6e6e, 0x5cf5, 0x4d7c],
    [0xc60c, 0xd785, 0xe51e, 0xf497, 0x8028, 0x91a1, 0xa33a, 0xb2b3],
    [0x4a44, 0x5bcd, 0x6956, 0x78df, 0x0c60, 0x1de9, 0x2f72, 0x3efb],
    [0xd68d, 0xc704, 0xf59f, 0xe416, 0x90a9, 0x8120, 0xb3bb, 0xa232],
    [0x5ac5, 0x4b4c, 0x79d7, 0x685e, 0x1ce1, 0x0d68, 0x3ff3, 0x2e7a],
    [0xe70e, 0xf687, 0xc41c, 0xd595, 0xa12a, 0xb0a3, 0x8238, 0x93b1],
    [0x6b46, 0x7acf, 0x4854, 0x59dd, 0x2d62, 0x3ceb, 0x0e70, 0x1ff9],
    [0xf78f, 0xe606, 0xd49d, 0xc514, 0xb1ab, 0xa022, 0x92b9, 0x8330],
    [0x7bc7, 0x6a4e, 0x58d5, 0x495c, 0x3de3, 0x2c6a, 0x1ef1, 0x0f78]
  ]

  predicate IsRow(base: byte, row: seq<bv16>) {
    && |row| == 8
    && row[0] == Bits8(base as bv16) && row[1] == Bits8((base | 1) as bv16)
    && row[2] == Bits8((base | 2) as bv16) && row[3] == Bits8((base | 3) as bv16)
    && row[4] == Bits8((base | 4) as bv16) && row[5] == Bits8((base | 5) as bv16)
    && row[6] == Bits8((base | 6) as bv16) && row[7] == Bits8((base | 7) as bv16)
  }

  lemma Rows0And1()
    ensures IsRow(0x00, TABLE[0]) && IsRow(0x08, TABLE[1])
  {
  }

  lemma Rows2And3()
    ensures IsRow(0x10, TABLE[2]) && IsRow(0x18, TABLE[3])
  {
  }

  lemma Rows4And5()
    ensures IsRow(0x20, TABLE[4]) && IsRow(0x28, TABLE[5])
  {
  }

  lemma Rows6And7()
    ensures IsRow(0x30, TABLE[6]) && IsRow(0x38, TABLE[7])
  {
  }

  lemma Rows8And9()
    ensures IsRow(0x40, TABLE[8]) && IsRow(0x48, TABLE[9])
  {
  }

  lemma Rows10And11()
    ensures IsRow(0x50, TABLE[10]) && IsRow(0x58, TABLE[11])
  {
  }

  lemma Rows12And13()
    ensures IsRow(0x60, TABLE[12]) && IsRow(0x68, TABLE[13])
  {
  }

  lemma Rows14And15()
    ensures IsRow(0x70, TABLE[14]) && IsRow(0x78, TABLE[15])
  {
  }

  lemma Rows16And17()
    ensures IsRow(0x80, TABLE[16]) && IsRow(0x88, TABLE[17])
  {
  }

  lemma Rows18And19()
    ensures IsRow(0x90, TABLE[18]) && IsRow(0x98, TABLE[19])
  {
  }

  lemma Rows20And21()
    ensures IsRow(0xa0, TABLE[20]) && IsRow(0xa8, TABLE[21])
  {
  }

  lemma Rows22And23()
    ensures IsRow(0xb0, TABLE[22]) && IsRow(0xb8, TABLE[23])
  {
  }

  lemma Rows24And25()
    ensures IsRow(0xc0, TABLE[24]) && IsRow(0xc8, TABLE[25])
  {
  }

  lemma Rows26And27()
    ensures IsRow(0xd0, TABLE[26]) && IsRow(0xd8, TABLE[27])
  {
  }

  lemma Rows28And29()
    ensures IsRow(0xe0, TABLE[28]) && IsRow(0xe8, TABLE[29])
  {
  }

  lemma Rows30And31()
    ensures IsRow(0xf0, TABLE[30]) && IsRow(0xf8, TABLE[31])
  {
  }

  lemma RowsFrom0(r: byte)
    requires 0 <= r <= 7
    ensures IsRow(r << 3, TABLE[r as nat])
  {
    match r
    case 0 => Rows0And1();
    case 1 => Rows0And1();
    case 2 => Rows2And3();
    case 3 => Rows2And3();
    case 4 => Rows4And5();
    case 5 => Rows4And5();
    case 6 => Rows6And7();
    case _ =>
      assert r == 7;
      Rows6And7();
  }

  lemma RowsFrom8(r: byte)
    requires 8 <= r <= 15
    ensures IsRow(r << 3, TABLE[r as nat])
  {
    match r
    case 8 => Rows8And9();
    case 9 => Rows8And9();
    case 10 => Rows10And11();
    case 11 => Rows10And11();
    case 12 => Rows12And13();
    case 13 => Rows12And13();
    case 14 => Rows14And15();
    case _ =>
      assert r == 15;
      Rows14And15();
  }

  lemma RowsFrom16(r: byte)
    requires 16 <= r <= 23
    ensures IsRow(r << 3, TABLE[r as nat])
  {
    match r
    case 16 => Rows16And17();
    case 17 => Rows16And17();
    case 18 => Rows18And19();
    case 19 => Rows18And19();
    case 20 => Rows20And21();
    case 21 => Rows20And21();
    case 22 => Rows22And23();
    case _ =>
      assert r == 23;
      Rows22And23();
  }

  lemma RowsFrom24(r: byte)
    requires 24 <= r <= 31
    ensures IsRow(r << 3, TABLE[r as nat])
  {
    match r
    case 24 => Rows24And25();
    case 25 => Rows24And25();
    case 26 => Rows26And27();
    case 27 => Rows26And27();
    case 28 => Rows28And29();
    case 29 => Rows28And29();
    case 30 => Rows30And31();
    case _ =>
      assert r == 31;
      Rows30And31();
  }

  lemma RowIs(r: byte)
    requires r < 32
    ensures r as nat < |TABLE| && IsRow(r << 3, TABLE[r as nat])
  {
    if r < 8 {
      RowsFrom0(r);
    } else if r < 16 {
      RowsFrom8(r);
    } else if r < 24 {
      RowsFrom16(r);
    } else {
      RowsFrom24(r);
    }
  }

  /** ppp_crc16_table[i]. */
  function Entry(i: byte): bv16 {
    var row := TABLE[((i >> 3) & 0x1F) as nat];
    if |row| == 8 then row[(i & 0x07) as nat] else 0
  }

  /** Every one of the 256 entries is the bit-serial remainder of its index. */
  lemma TableIsBitSerial(i: byte)
    ensures Entry(i) == Bits8(i as bv16)
  {
    var r, c := (i >> 3) & 0x1F, i & 0x07;
    RowIs(r);
    Recombine(i);
    match c
    case 0 =>
    case 1 =>
    case 2 =>
    case 3 =>
    case 4 =>
    case 5 =>
    case 6 =>
    case _ => assert c == 7;
  }

  lemma Recombine(i: byte)
    ensures (i >> 3) & 0x1F < 32 && i & 0x07 < 8 && (((i >> 3) & 0x1F) << 3) | (i & 0x07) == i
    ensures i & 0x07 == 0 ==> ((i >> 3) & 0x1F) << 3 == i
  {
  }
}
