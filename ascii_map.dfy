/** The table that translates a printing ASCII character into a key usage of
    the keyboard page of the USB HID Usage Tables.

    Entry `c` is the usage for character `c`; bit 0x80 of an entry marks a
    character that is typed with the left shift key held; an entry of 0 marks
    a character that has no key.
 */
module AsciiMap {

  /** Bit of an entry that means "needs shift". */
  const Shift: bv8 := 0x80

  /** The usage part of an entry. */
  const UsageMask: bv8 := 0x7F

  /** `_asciimap`, indexed by character code 0..127, written as eight rows of
      sixteen entries (row `r` holds the characters 16r .. 16r + 15). */
  const Table: seq<bv8> := Row0 + Row1 + Row2 + Row3 + Row4 + Row5 + Row6 + Row7

  const Row0: seq<bv8> := [
      0x00, // 0 NUL
      0x00, // 1 SOH
      0x00, // 2 STX
      0x00, // 3 ETX
      0x00, // 4 EOT
      0x00, // 5 ENQ
      0x00, // 6 ACK
      0x00, // 7 BEL
      0x2a, // 8 BS Backspace
      0x2b, // 9 TAB Tab
      0x28, // 10 LF Enter
      0x00, // 11 VT
      0x00, // 12 FF
      0x00, // 13 CR
      0x00, // 14 SO
      0x00  // 15 SI
  ]

  const Row1: seq<bv8> := [
      0x00, // 16 DLE
      0x00, // 17 DC1
      0x00, // 18 DC2
      0x00, // 19 DC3
      0x00, // 20 DC4
      0x00, // 21 NAK
      0x00, // 22 SYN
      0x00, // 23 ETB
      0x00, // 24 CAN
      0x00, // 25 EM
      0x00, // 26 SUB
      0x00, // 27 ESC
      0x00, // 28 FS
      0x00, // 29 GS
      0x00, // 30 RS
      0x00  // 31 US
  ]

  const Row2: seq<bv8> := [
      0x2c, // 32 ' '
      0x9e, // 33 !
      0xb4, // 34 "
      0xa0, // 35 #
      0xa1, // 36 $
      0xa2, // 37 %
      0xa4, // 38 &
      0x34, // 39 '
      0xa6, // 40 (
      0xa7, // 41 )
      0xa5, // 42 *
      0xae, // 43 +
      0x36, // 44 ,
      0x2d, // 45 -
      0x37, // 46 .
      0x38  // 47 /
  ]

  const Row3: seq<bv8> := [
      0x27, // 48 0
      0x1e, // 49 1
      0x1f, // 50 2
      0x20, // 51 3
      0x21, // 52 4
      0x22, // 53 5
      0x23, // 54 6
      0x24, // 55 7
      0x25, // 56 8
      0x26, // 57 9
      0xb3, // 58 :
      0x33, // 59 ;
      0xb6, // 60 <
      0x2e, // 61 =
      0xb7, // 62 >
      0xb8  // 63 ?
  ]

  const Row4: seq<bv8> := [
      0x9f, // 64 @
      0x84, // 65 A
      0x85, // 66 B
      0x86, // 67 C
      0x87, // 68 D
      0x88, // 69 E
      0x89, // 70 F
      0x8a, // 71 G
      0x8b, // 72 H
      0x8c, // 73 I
      0x8d, // 74 J
      0x8e, // 75 K
      0x8f, // 76 L
      0x90, // 77 M
      0x91, // 78 N
      0x92  // 79 O
  ]

  const Row5: seq<bv8> := [
      0x93, // 80 P
      0x94, // 81 Q
      0x95, // 82 R
      0x96, // 83 S
      0x97, // 84 T
      0x98, // 85 U
      0x99, // 86 V
      0x9a, // 87 W
      0x9b, // 88 X
      0x9c, // 89 Y
      0x9d, // 90 Z
      0x2f, // 91 [
      0x31, // 92 backslash
      0x30, // 93 ]
      0xa3, // 94 ^
      0xad  // 95 _
  ]

  const Row6: seq<bv8> := [
      0x35, // 96 `
      0x04, // 97 a
      0x05, // 98 b
      0x06, // 99 c
      0x07, // 100 d
      0x08, // 101 e
      0x09, // 102 f
      0x0a, // 103 g
      0x0b, // 104 h
      0x0c, // 105 i
      0x0d, // 106 j
      0x0e, // 107 k
      0x0f, // 108 l
      0x10, // 109 m
      0x11, // 110 n
      0x12  // 111 o
  ]

  const Row7: seq<bv8> := [
      0x13, // 112 p
      0x14, // 113 q
      0x15, // 114 r
      0x16, // 115 s
      0x17, // 116 t
      0x18, // 117 u
      0x19, // 118 v
      0x1a, // 119 w
      0x1b, // 120 x
      0x1c, // 121 y
      0x1d, // 122 z
      0xaf, // 123 {
      0xb1, // 124 |
      0xb0, // 125 }
      0xb5, // 126 ~
      0x00  // 127 DEL
  ]

  /** Entry `c` of the table is entry `c - 16 r` of row `r`, for `r = c / 16`. */
  lemma RowEntry(c: nat)
    requires c < 128
    ensures |Table| == 128
    ensures 0 <= c < 16 ==> Table[c] == Row0[c]
    ensures 16 <= c < 32 ==> Table[c] == Row1[c - 16]
    ensures 32 <= c < 48 ==> Table[c] == Row2[c - 32]
    ensures 48 <= c < 64 ==> Table[c] == Row3[c - 48]
    ensures 64 <= c < 80 ==> Table[c] == Row4[c - 64]
    ensures 80 <= c < 96 ==> Table[c] == Row5[c - 80]
    ensures 96 <= c < 112 ==> Table[c] == Row6[c - 96]
    ensures 112 <= c < 128 ==> Table[c] == Row7[c - 112]
  {
  }

  /** Backspace, tab, line feed and the printing characters ' ' .. '~' have a
      key; every other character (the other control codes and DEL) has none. */
  lemma MappedCharacters(c: nat)
    requires c < 128
    ensures Table[c] != 0 <==> c == 8 || c == 9 || c == 10 || 32 <= c < 127
  {
    RowEntry(c);
    if c < 16 {} else if c < 32 {} else if c < 48 {} else if c < 64 {}
    else if c < 80 {} else if c < 96 {} else if c < 112 {} else {}
  }

  /** Removing the shift bit from a mapped entry never leaves usage 0, so a
      mapped character always occupies a key slot. */
  lemma MappedUsageNonZero(c: nat)
    requires c < 128 && Table[c] != 0
    ensures Table[c] & UsageMask != 0
  {
    RowEntry(c);
    if c < 16 {} else if c < 32 {} else if c < 48 {} else if c < 64 {}
    else if c < 80 {} else if c < 96 {} else if c < 112 {} else {}
  }
}
