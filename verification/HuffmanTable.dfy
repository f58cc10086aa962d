/**
 The code table of RFC 7541 Appendix B (src/server/http2/hpack.rs:463-721) and the proof that it is a
 canonical, hence prefix-free, Huffman code with an all-ones end-of-string code.
 */
module HuffmanTable {
  import opened Base
  import opened CanonicalCode

  datatype Entry = Entry(symbol: int, code: int, bits: int)

  const EOS := 256

  const SPEC_0: seq<Entry> := [
    Entry(0, 0x1ff8, 13), Entry(1, 0x7fffd8, 23), Entry(2, 0xfffffe2, 28), Entry(3, 0xfffffe3, 28),
    Entry(4, 0xfffffe4, 28), Entry(5, 0xfffffe5, 28), Entry(6, 0xfffffe6, 28), Entry(7, 0xfffffe7, 28),
    Entry(8, 0xfffffe8, 28), Entry(9, 0xffffea, 24), Entry(10, 0x3ffffffc, 30), Entry(11, 0xfffffe9, 28),
    Entry(12, 0xfffffea, 28), Entry(13, 0x3ffffffd, 30), Entry(14, 0xfffffeb, 28), Entry(15, 0xfffffec, 28)]

  const SPEC_1: seq<Entry> := [
    Entry(16, 0xfffffed, 28), Entry(17, 0xfffffee, 28), Entry(18, 0xfffffef, 28), Entry(19, 0xffffff0, 28),
    Entry(20, 0xffffff1, 28), Entry(21, 0xffffff2, 28), Entry(22, 0x3ffffffe, 30), Entry(23, 0xffffff3, 28),
    Entry(24, 0xffffff4, 28), Entry(25, 0xffffff5, 28), Entry(26, 0xffffff6, 28), Entry(27, 0xffffff7, 28),
    Entry(28, 0xffffff8, 28), Entry(29, 0xffffff9, 28), Entry(30, 0xffffffa, 28), Entry(31, 0xffffffb, 28)]

  const SPEC_2: seq<Entry> := [
    Entry(32, 0x14, 6), Entry(33, 0x3f8, 10), Entry(34, 0x3f9, 10), Entry(35, 0xffa, 12),
    Entry(36, 0x1ff9, 13), Entry(37, 0x15, 6), Entry(38, 0xf8, 8), Entry(39, 0x7fa, 11),
    Entry(40, 0x3fa, 10), Entry(41, 0x3fb, 10), Entry(42, 0xf9, 8), Entry(43, 0x7fb, 11),
    Entry(44, 0xfa, 8), Entry(45, 0x16, 6), Entry(46, 0x17, 6), Entry(47, 0x18, 6)]

  const SPEC_3: seq<Entry> := [
    Entry(48, 0x0, 5), Entry(49, 0x1, 5), Entry(50, 0x2, 5), Entry(51, 0x19, 6),
    Entry(52, 0x1a, 6), Entry(53, 0x1b, 6), Entry(54, 0x1c, 6), Entry(55, 0x1d, 6),
    Entry(56, 0x1e, 6), Entry(57, 0x1f, 6), Entry(58, 0x5c, 7), Entry(59, 0xfb, 8),
    Entry(60, 0x7ffc, 15), Entry(61, 0x20, 6), Entry(62, 0xffb, 12), Entry(63, 0x3fc, 10)]

  const SPEC_4: seq<Entry> := [
    Entry(64, 0x1ffa, 13), Entry(65, 0x21, 6), Entry(66, 0x5d, 7), Entry(67, 0x5e, 7),
    Entry(68, 0x5f, 7), Entry(69, 0x60, 7), Entry(70, 0x61, 7), Entry(71, 0x62, 7),
    Entry(72, 0x63, 7), Entry(73, 0x64, 7), Entry(74, 0x65, 7), Entry(75, 0x66, 7),
    Entry(76, 0x67, 7), Entry(77, 0x68, 7), Entry(78, 0x69, 7), Entry(79, 0x6a, 7)]

  const SPEC_5: seq<Entry> := [
    Entry(80, 0x6b, 7), Entry(81, 0x6c, 7), Entry(82, 0x6d, 7), Entry(83, 0x6e, 7),
    Entry(84, 0x6f, 7), Entry(85, 0x70, 7), Entry(86, 0x71, 7), Entry(87, 0x72, 7),
    Entry(88, 0xfc, 8), Entry(89, 0x73, 7), Entry(90, 0xfd, 8), Entry(91, 0x1ffb, 13),
    Entry(92, 0x7fff0, 19), Entry(93, 0x1ffc, 13), Entry(94, 0x3ffc, 14), Entry(95, 0x22, 6)]

  const SPEC_6: seq<Entry> := [
    Entry(96, 0x7ffd, 15), Entry(97, 0x3, 5), Entry(98, 0x23, 6), Entry(99, 0x4, 5),
    Entry(100, 0x24, 6), Entry(101, 0x5, 5), Entry(102, 0x25, 6), Entry(103, 0x26, 6),
    Entry(104, 0x27, 6), Entry(105, 0x6, 5), Entry(106, 0x74, 7), Entry(107, 0x75, 7),
    Entry(108, 0x28, 6), Entry(109, 0x29, 6), Entry(110, 0x2a, 6), Entry(111, 0x7, 5)]

  const SPEC_7: seq<Entry> := [
    Entry(112, 0x2b, 6), Entry(113, 0x76, 7), Entry(114, 0x2c, 6), Entry(115, 0x8, 5),
    Entry(116, 0x9, 5), Entry(117, 0x2d, 6), Entry(118, 0x77, 7), Entry(119, 0x78, 7),
    Entry(120, 0x79, 7), Entry(121, 0x7a, 7), Entry(122, 0x7b, 7), Entry(123, 0x7ffe, 15),
    Entry(124, 0x7fc, 11), Entry(125, 0x3ffd, 14), Entry(126, 0x1ffd, 13), Entry(127, 0xffffffc, 28)]

  const SPEC_8: seq<Entry> := [
    Entry(128, 0xfffe6, 20), Entry(129, 0x3fffd2, 22), Entry(130, 0xfffe7, 20), Entry(131, 0xfffe8, 20),
    Entry(132, 0x3fffd3, 22), Entry(133, 0x3fffd4, 22), Entry(134, 0x3fffd5, 22), Entry(135, 0x7fffd9, 23),
    Entry(136, 0x3fffd6, 22), Entry(137, 0x7fffda, 23), Entry(138, 0x7fffdb, 23), Entry(139, 0x7fffdc, 23),
    Entry(140, 0x7fffdd, 23), Entry(141, 0x7fffde, 23), Entry(142, 0xffffeb, 24), Entry(143, 0x7fffdf, 23)]

  const SPEC_9: seq<Entry> := [
    Entry(144, 0xffffec, 24), Entry(145, 0xffffed, 24), Entry(146, 0x3fffd7, 22), Entry(147, 0x7fffe0, 23),
    Entry(148, 0xffffee, 24), Entry(149, 0x7fffe1, 23), Entry(150, 0x7fffe2, 23), Entry(151, 0x7fffe3, 23),
    Entry(152, 0x7fffe4, 23), Entry(153, 0x1fffdc, 21), Entry(154, 0x3fffd8, 22), Entry(155, 0x7fffe5, 23),
    Entry(156, 0x3fffd9, 22), Entry(157, 0x7fffe6, 23), Entry(158, 0x7fffe7, 23), Entry(159, 0xffffef, 24)]

  const SPEC_10: seq<Entry> := [
    Entry(160, 0x3fffda, 22), Entry(161, 0x1fffdd, 21), Entry(162, 0xfffe9, 20), Entry(163, 0x3fffdb, 22),
    Entry(164, 0x3fffdc, 22), Entry(165, 0x7fffe8, 23), Entry(166, 0x7fffe9, 23), Entry(167, 0x1fffde, 21),
    Entry(168, 0x7fffea, 23), Entry(169, 0x3fffdd, 22), Entry(170, 0x3fffde, 22), Entry(171, 0xfffff0, 24),
    Entry(172, 0x1fffdf, 21), Entry(173, 0x3fffdf, 22), Entry(174, 0x7fffeb, 23), Entry(175, 0x7fffec, 23)]

  const SPEC_11: seq<Entry> := [
    Entry(176, 0x1fffe0, 21), Entry(177, 0x1fffe1, 21), Entry(178, 0x3fffe0, 22), Entry(179, 0x1fffe2, 21),
    Entry(180, 0x7fffed, 23), Entry(181, 0x3fffe1, 22), Entry(182, 0x7fffee, 23), Entry(183, 0x7fffef, 23),
    Entry(184, 0xfffea, 20), Entry(185, 0x3fffe2, 22), Entry(186, 0x3fffe3, 22), Entry(187, 0x3fffe4, 22),
    Entry(188, 0x7ffff0, 23), Entry(189, 0x3fffe5, 22), Entry(190, 0x3fffe6, 22), Entry(191, 0x7ffff1, 23)]

  const SPEC_12: seq<Entry> := [
    Entry(192, 0x3ffffe0, 26), Entry(193, 0x3ffffe1, 26), Entry(194, 0xfffeb, 20), Entry(195, 0x7fff1, 19),
    Entry(196, 0x3fffe7, 22), Entry(197, 0x7ffff2, 23), Entry(198, 0x3fffe8, 22), Entry(199, 0x1ffffec, 25),
    Entry(200, 0x3ffffe2, 26), Entry(201, 0x3ffffe3, 26), Entry(202, 0x3ffffe4, 26), Entry(203, 0x7ffffde, 27),
    Entry(204, 0x7ffffdf, 27), Entry(205, 0x3ffffe5, 26), Entry(206, 0xfffff1, 24), Entry(207, 0x1ffffed, 25)]

  const SPEC_13: seq<Entry> := [
    Entry(208, 0x7fff2, 19), Entry(209, 0x1fffe3, 21), Entry(210, 0x3ffffe6, 26), Entry(211, 0x7ffffe0, 27),
    Entry(212, 0x7ffffe1, 27), Entry(213, 0x3ffffe7, 26), Entry(214, 0x7ffffe2, 27), Entry(215, 0xfffff2, 24),
    Entry(216, 0x1fffe4, 21), Entry(217, 0x1fffe5, 21), Entry(218, 0x3ffffe8, 26), Entry(219, 0x3ffffe9, 26),
    Entry(220, 0xffffffd, 28), Entry(221, 0x7ffffe3, 27), Entry(222, 0x7ffffe4, 27), Entry(223, 0x7ffffe5, 27)]

  const SPEC_14: seq<Entry> := [
    Entry(224, 0xfffec, 20), Entry(225, 0xfffff3, 24), Entry(226, 0xfffed, 20), Entry(227, 0x1fffe6, 21),
    Entry(228, 0x3fffe9, 22), Entry(229, 0x1fffe7, 21), Entry(230, 0x1fffe8, 21), Entry(231, 0x7ffff3, 23),
    Entry(232, 0x3fffea, 22), Entry(233, 0x3fffeb, 22), Entry(234, 0x1ffffee, 25), Entry(235, 0x1ffffef, 25),
    Entry(236, 0xfffff4, 24), Entry(237, 0xfffff5, 24), Entry(238, 0x3ffffea, 26), Entry(239, 0x7ffff4, 23)]

  const SPEC_15: seq<Entry> := [
    Entry(240, 0x3ffffeb, 26), Entry(241, 0x7ffffe6, 27), Entry(242, 0x3ffffec, 26), Entry(243, 0x3ffffed, 26),
    Entry(244, 0x7ffffe7, 27), Entry(245, 0x7ffffe8, 27), Entry(246, 0x7ffffe9, 27), Entry(247, 0x7ffffea, 27),
    Entry(248, 0x7ffffeb, 27), Entry(249, 0xffffffe, 28), Entry(250, 0x7ffffec, 27), Entry(251, 0x7ffffed, 27),
    Entry(252, 0x7ffffee, 27), Entry(253, 0x7ffffef, 27), Entry(254, 0x7fffff0, 27), Entry(255, 0x3ffffee, 26)]

  const EOS_ENTRY := Entry(256, 0x3fffffff, 30)

  const HUFFMAN_SPEC: seq<Entry> :=
    SPEC_0 + SPEC_1 + SPEC_2 + SPEC_3 + SPEC_4 + SPEC_5 + SPEC_6 + SPEC_7
    + SPEC_8 + SPEC_9 + SPEC_10 + SPEC_11 + SPEC_12 + SPEC_13 + SPEC_14 + SPEC_15 + [EOS_ENTRY]

  // ---------------------------------------------------------------- the table is canonical

  /** The inverse table, by code length; -1 where there is no such code. */
  function SymbolOf(bits: int, code: int): int {
    match bits
    case 5 => (
      match code
      case 0x0 => 48 case 0x1 => 49 case 0x2 => 50 case 0x3 => 97 case 0x4 => 99 case 0x5 => 101
      case 0x6 => 105 case 0x7 => 111 case 0x8 => 115 case 0x9 => 116 case _ => -1)
    case 6 => (
      match code
      case 0x14 => 32 case 0x15 => 37 case 0x16 => 45 case 0x17 => 46 case 0x18 => 47 case 0x19 => 51
      case 0x1a => 52 case 0x1b => 53 case 0x1c => 54 case 0x1d => 55 case 0x1e => 56 case 0x1f => 57
      case 0x20 => 61 case 0x21 => 65 case 0x22 => 95 case 0x23 => 98 case 0x24 => 100 case 0x25 => 102
      case 0x26 => 103 case 0x27 => 104 case 0x28 => 108 case 0x29 => 109 case 0x2a => 110 case 0x2b => 112
      case 0x2c => 114 case 0x2d => 117 case _ => -1)
    case 7 => (
      match code
      case 0x5c => 58 case 0x5d => 66 case 0x5e => 67 case 0x5f => 68 case 0x60 => 69 case 0x61 => 70
      case 0x62 => 71 case 0x63 => 72 case 0x64 => 73 case 0x65 => 74 case 0x66 => 75 case 0x67 => 76
      case 0x68 => 77 case 0x69 => 78 case 0x6a => 79 case 0x6b => 80 case 0x6c => 81 case 0x6d => 82
      case 0x6e => 83 case 0x6f => 84 case 0x70 => 85 case 0x71 => 86 case 0x72 => 87 case 0x73 => 89
      case 0x74 => 106 case 0x75 => 107 case 0x76 => 113 case 0x77 => 118 case 0x78 => 119 case 0x79 => 120
      case 0x7a => 121 case 0x7b => 122 case _ => -1)
    case 8 => (
      match code
      case 0xf8 => 38 case 0xf9 => 42 case 0xfa => 44 case 0xfb => 59 case 0xfc => 88 case 0xfd => 90
      case _ => -1)
    case 10 => (
      match code
      case 0x3f8 => 33 case 0x3f9 => 34 case 0x3fa => 40 case 0x3fb => 41 case 0x3fc => 63 case _ => -1)
    case 11 => (
      match code
      case 0x7fa => 39 case 0x7fb => 43 case 0x7fc => 124 case _ => -1)
    case 12 => (
      match code
      case 0xffa => 35 case 0xffb => 62 case _ => -1)
    case 13 => (
      match code
      case 0x1ff8 => 0 case 0x1ff9 => 36 case 0x1ffa => 64 case 0x1ffb => 91 case 0x1ffc => 93
      case 0x1ffd => 126 case _ => -1)
    case 14 => (
      match code
      case 0x3ffc => 94 case 0x3ffd => 125 case _ => -1)
    case 15 => (
      match code
      case 0x7ffc => 60 case 0x7ffd => 96 case 0x7ffe => 123 case _ => -1)
    case 19 => (
      match code
      case 0x7fff0 => 92 case 0x7fff1 => 195 case 0x7fff2 => 208 case _ => -1)
    case 20 => (
      match code
      case 0xfffe6 => 128 case 0xfffe7 => 130 case 0xfffe8 => 131 case 0xfffe9 => 162 case 0xfffea => 184
      case 0xfffeb => 194 case 0xfffec => 224 case 0xfffed => 226 case _ => -1)
    case 21 => (
      match code
      case 0x1fffdc => 153 case 0x1fffdd => 161 case 0x1fffde => 167 case 0x1fffdf => 172 case 0x1fffe0 => 176
      case 0x1fffe1 => 177 case 0x1fffe2 => 179 case 0x1fffe3 => 209 case 0x1fffe4 => 216 case 0x1fffe5 => 217
      case 0x1fffe6 => 227 case 0x1fffe7 => 229 case 0x1fffe8 => 230 case _ => -1)
    case 22 => (
      match code
      case 0x3fffd2 => 129 case 0x3fffd3 => 132 case 0x3fffd4 => 133 case 0x3fffd5 => 134 case 0x3fffd6 => 136
      case 0x3fffd7 => 146 case 0x3fffd8 => 154 case 0x3fffd9 => 156 case 0x3fffda => 160 case 0x3fffdb => 163
      case 0x3fffdc => 164 case 0x3fffdd => 169 case 0x3fffde => 170 case 0x3fffdf => 173 case 0x3fffe0 => 178
      case 0x3fffe1 => 181 case 0x3fffe2 => 185 case 0x3fffe3 => 186 case 0x3fffe4 => 187 case 0x3fffe5 => 189
      case 0x3fffe6 => 190 case 0x3fffe7 => 196 case 0x3fffe8 => 198 case 0x3fffe9 => 228 case 0x3fffea => 232
      case 0x3fffeb => 233 case _ => -1)
    case 23 => (
      match code
      case 0x7fffd8 => 1 case 0x7fffd9 => 135 case 0x7fffda => 137 case 0x7fffdb => 138 case 0x7fffdc => 139
      case 0x7fffdd => 140 case 0x7fffde => 141 case 0x7fffdf => 143 case 0x7fffe0 => 147 case 0x7fffe1 => 149
      case 0x7fffe2 => 150 case 0x7fffe3 => 151 case 0x7fffe4 => 152 case 0x7fffe5 => 155 case 0x7fffe6 => 157
      case 0x7fffe7 => 158 case 0x7fffe8 => 165 case 0x7fffe9 => 166 case 0x7fffea => 168 case 0x7fffeb => 174
      case 0x7fffec => 175 case 0x7fffed => 180 case 0x7fffee => 182 case 0x7fffef => 183 case 0x7ffff0 => 188
      case 0x7ffff1 => 191 case 0x7ffff2 => 197 case 0x7ffff3 => 231 case 0x7ffff4 => 239 case _ => -1)
    case 24 => (
      match code
      case 0xffffea => 9 case 0xffffeb => 142 case 0xffffec => 144 case 0xffffed => 145 case 0xffffee => 148
      case 0xffffef => 159 case 0xfffff0 => 171 case 0xfffff1 => 206 case 0xfffff2 => 215 case 0xfffff3 => 225
      case 0xfffff4 => 236 case 0xfffff5 => 237 case _ => -1)
    case 25 => (
      match code
      case 0x1ffffec => 199 case 0x1ffffed => 207 case 0x1ffffee => 234 case 0x1ffffef => 235 case _ => -1)
    case 26 => (
      match code
      case 0x3ffffe0 => 192 case 0x3ffffe1 => 193 case 0x3ffffe2 => 200 case 0x3ffffe3 => 201 case 0x3ffffe4 => 202
      case 0x3ffffe5 => 205 case 0x3ffffe6 => 210 case 0x3ffffe7 => 213 case 0x3ffffe8 => 218 case 0x3ffffe9 => 219
      case 0x3ffffea => 238 case 0x3ffffeb => 240 case 0x3ffffec => 242 case 0x3ffffed => 243 case 0x3ffffee => 255
      case _ => -1)
    case 27 => (
      match code
      case 0x7ffffde => 203 case 0x7ffffdf => 204 case 0x7ffffe0 => 211 case 0x7ffffe1 => 212 case 0x7ffffe2 => 214
      case 0x7ffffe3 => 221 case 0x7ffffe4 => 222 case 0x7ffffe5 => 223 case 0x7ffffe6 => 241 case 0x7ffffe7 => 244
      case 0x7ffffe8 => 245 case 0x7ffffe9 => 246 case 0x7ffffea => 247 case 0x7ffffeb => 248 case 0x7ffffec => 250
      case 0x7ffffed => 251 case 0x7ffffee => 252 case 0x7ffffef => 253 case 0x7fffff0 => 254 case _ => -1)
    case 28 => (
      match code
      case 0xfffffe2 => 2 case 0xfffffe3 => 3 case 0xfffffe4 => 4 case 0xfffffe5 => 5 case 0xfffffe6 => 6
      case 0xfffffe7 => 7 case 0xfffffe8 => 8 case 0xfffffe9 => 11 case 0xfffffea => 12 case 0xfffffeb => 14
      case 0xfffffec => 15 case 0xfffffed => 16 case 0xfffffee => 17 case 0xfffffef => 18 case 0xffffff0 => 19
      case 0xffffff1 => 20 case 0xffffff2 => 21 case 0xffffff3 => 23 case 0xffffff4 => 24 case 0xffffff5 => 25
      case 0xffffff6 => 26 case 0xffffff7 => 27 case 0xffffff8 => 28 case 0xffffff9 => 29 case 0xffffffa => 30
      case 0xffffffb => 31 case 0xffffffc => 127 case 0xffffffd => 220 case 0xffffffe => 249 case _ => -1)
    case 30 => (
      match code
      case 0x3ffffffc => 10 case 0x3ffffffd => 13 case 0x3ffffffe => 22 case 0x3fffffff => 256
      case _ => -1)
    case _ => -1
  }

  /** The least code of each length. */
  function First(bits: int): int {
    match bits
    case 0 => 0x0 case 1 => 0x0 case 2 => 0x0 case 3 => 0x0 case 4 => 0x0
    case 5 => 0x0 case 6 => 0x14 case 7 => 0x5c case 8 => 0xf8 case 9 => 0x1fc
    case 10 => 0x3f8 case 11 => 0x7fa case 12 => 0xffa case 13 => 0x1ff8 case 14 => 0x3ffc
    case 15 => 0x7ffc case 16 => 0xfffe case 17 => 0x1fffc case 18 => 0x3fff8 case 19 => 0x7fff0
    case 20 => 0xfffe6 case 21 => 0x1fffdc case 22 => 0x3fffd2 case 23 => 0x7fffd8 case 24 => 0xffffea
    case 25 => 0x1ffffec case 26 => 0x3ffffe0 case 27 => 0x7ffffde case 28 => 0xfffffe2 case 29 => 0x1ffffffe
    case 30 => 0x3ffffffc
    case _ => 0
  }

  /** How many codes each length has. */
  function Count(bits: int): int {
    match bits
    case 5 => 10 case 6 => 26 case 7 => 32 case 8 => 6 case 10 => 5 case 11 => 3 case 12 => 2
    case 13 => 6 case 14 => 2 case 15 => 3 case 19 => 3 case 20 => 8 case 21 => 13 case 22 => 26
    case 23 => 29 case 24 => 12 case 25 => 4 case 26 => 15 case 27 => 19 case 28 => 29 case 30 => 4
    case _ => 0
  }

  predicate Placed(e: Entry) {
    && SymbolOf(e.bits, e.code) == e.symbol
    && 5 <= e.bits <= 30
    && InRow(First, Count, e.bits, e.code)
  }

  lemma Placed0()
    ensures |SPEC_0| == 16
    ensures forall i :: 0 <= i < 16 ==> SPEC_0[i].symbol == 0 + i && Placed(SPEC_0[i])
  {
  }

  lemma Placed1()
    ensures |SPEC_1| == 16
    ensures forall i :: 0 <= i < 16 ==> SPEC_1[i].symbol == 16 + i && Placed(SPEC_1[i])
  {
  }

  lemma Placed2()
    ensures |SPEC_2| == 16
    ensures forall i :: 0 <= i < 16 ==> SPEC_2[i].symbol == 32 + i && Placed(SPEC_2[i])
  {
  }

  lemma Placed3()
    ensures |SPEC_3| == 16
    ensures forall i :: 0 <= i < 16 ==> SPEC_3[i].symbol == 48 + i && Placed(SPEC_3[i])
  {
  }

  lemma Placed4()
    ensures |SPEC_4| == 16
    ensures forall i :: 0 <= i < 16 ==> SPEC_4[i].symbol == 64 + i && Placed(SPEC_4[i])
  {
  }

  lemma Placed5()
    ensures |SPEC_5| == 16
    ensures forall i :: 0 <= i < 16 ==> SPEC_5[i].symbol == 80 + i && Placed(SPEC_5[i])
  {
  }

  lemma Placed6()
    ensures |SPEC_6| == 16
    ensures forall i :: 0 <= i < 16 ==> SPEC_6[i].symbol == 96 + i && Placed(SPEC_6[i])
  {
  }

  lemma Placed7()
    ensures |SPEC_7| == 16
    ensures forall i :: 0 <= i < 16 ==> SPEC_7[i].symbol == 112 + i && Placed(SPEC_7[i])
  {
  }

  lemma Placed8()
    ensures |SPEC_8| == 16
    ensures forall i :: 0 <= i < 16 ==> SPEC_8[i].symbol == 128 + i && Placed(SPEC_8[i])
  {
  }

  lemma Placed9()
    ensures |SPEC_9| == 16
    ensures forall i :: 0 <= i < 16 ==> SPEC_9[i].symbol == 144 + i && Placed(SPEC_9[i])
  {
  }

  lemma Placed10()
    ensures |SPEC_10| == 16
    ensures forall i :: 0 <= i < 16 ==> SPEC_10[i].symbol == 160 + i && Placed(SPEC_10[i])
  {
  }

  lemma Placed11()
    ensures |SPEC_11| == 16
    ensures forall i :: 0 <= i < 16 ==> SPEC_11[i].symbol == 176 + i && Placed(SPEC_11[i])
  {
  }

  lemma Placed12()
    ensures |SPEC_12| == 16
    ensures forall i :: 0 <= i < 16 ==> SPEC_12[i].symbol == 192 + i && Placed(SPEC_12[i])
  {
  }

  lemma Placed13()
    ensures |SPEC_13| == 16
    ensures forall i :: 0 <= i < 16 ==> SPEC_13[i].symbol == 208 + i && Placed(SPEC_13[i])
  {
  }

  lemma Placed14()
    ensures |SPEC_14| == 16
    ensures forall i :: 0 <= i < 16 ==> SPEC_14[i].symbol == 224 + i && Placed(SPEC_14[i])
  {
  }

  lemma Placed15()
    ensures |SPEC_15| == 16
    ensures forall i :: 0 <= i < 16 ==> SPEC_15[i].symbol == 240 + i && Placed(SPEC_15[i])
  {
  }

  /** Canonical assignment: each length starts at twice the end of the one before. */
  lemma FirstStep(b: nat)
    requires b < 30
    ensures First(b + 1) == 2 * (First(b) + Count(b)) && Count(b) >= 0
  {
  }

  /** Entries numbered from `base`, all at their canonical place. */
  ghost predicate Numbered(table: seq<Entry>, base: int) {
    forall i :: 0 <= i < |table| ==> table[i].symbol == base + i && Placed(table[i])
  }

  lemma NumberedAppend(s: seq<Entry>, t: seq<Entry>, base: int)
    requires Numbered(s, base) && Numbered(t, base + |s|)
    ensures Numbered(s + t, base)
  {
  }

  lemma SpecNumbered()
    ensures |HUFFMAN_SPEC| == 257 && Numbered(HUFFMAN_SPEC, 0)
  {
    Placed0(); Placed1(); Placed2(); Placed3(); Placed4(); Placed5(); Placed6(); Placed7();
    Placed8(); Placed9(); Placed10(); Placed11(); Placed12(); Placed13(); Placed14(); Placed15();
    var s := SPEC_0;
    NumberedAppend(s, SPEC_1, 0); s := s + SPEC_1;
    NumberedAppend(s, SPEC_2, 0); s := s + SPEC_2;
    NumberedAppend(s, SPEC_3, 0); s := s + SPEC_3;
    NumberedAppend(s, SPEC_4, 0); s := s + SPEC_4;
    NumberedAppend(s, SPEC_5, 0); s := s + SPEC_5;
    NumberedAppend(s, SPEC_6, 0); s := s + SPEC_6;
    NumberedAppend(s, SPEC_7, 0); s := s + SPEC_7;
    NumberedAppend(s, SPEC_8, 0); s := s + SPEC_8;
    NumberedAppend(s, SPEC_9, 0); s := s + SPEC_9;
    NumberedAppend(s, SPEC_10, 0); s := s + SPEC_10;
    NumberedAppend(s, SPEC_11, 0); s := s + SPEC_11;
    NumberedAppend(s, SPEC_12, 0); s := s + SPEC_12;
    NumberedAppend(s, SPEC_13, 0); s := s + SPEC_13;
    NumberedAppend(s, SPEC_14, 0); s := s + SPEC_14;
    NumberedAppend(s, SPEC_15, 0); s := s + SPEC_15;
    NumberedAppend(s, [EOS_ENTRY], 0);
    assert s + [EOS_ENTRY] == HUFFMAN_SPEC;
  }

  lemma Pow2Of30()
    ensures Pow2(30) == 0x4000_0000
  {
    assert Pow2(10) == 1024;
    Pow2Add(10, 10);
    Pow2Add(20, 10);
  }

  lemma RowsNonNegative(b: nat)
    requires b <= 30
    ensures First(b) >= 0 && Count(b) >= 0
  {
  }

  lemma LastRowFull()
    ensures First(30) + Count(30) == Pow2(30)
  {
    Pow2Of30();
  }

  lemma SpecCanonical()
    ensures Canonical(First, Count, 30)
  {
    hide First, Count, Pow2;
    LastRowFull();
    forall b | 0 <= b <= 30 ensures First(b) >= 0 && Count(b) >= 0 {
      RowsNonNegative(b);
    }
    forall b | 0 <= b < 30 ensures First(b + 1) == 2 * (First(b) + Count(b)) {
      FirstStep(b);
    }
  }

  // ---------------------------------------------------------------- what the decoder relies on

  predicate Codable(table: seq<Entry>) {
    forall i :: 0 <= i < |table| ==> table[i].code >= 0 && table[i].bits >= 0
  }

  function Codes(table: seq<Entry>): (codes: seq<Bits>)
    requires Codable(table)
    ensures |codes| == |table|
    ensures forall i :: 0 <= i < |table| ==> codes[i] == CodeBits(table[i].code, table[i].bits)
  {
    seq(|table|, i requires 0 <= i < |table| => CodeBits(table[i].code, table[i].bits))
  }

  /** 257 non-empty codes, none a prefix of another, the last one eight or more one-bits. */
  ghost predicate PrefixCode(codes: seq<Bits>) {
    && |codes| == 257
    && (forall i :: 0 <= i < 257 ==> |codes[i]| > 0)
    && (forall i, j :: 0 <= i < 257 && 0 <= j < 257 && codes[i] <= codes[j] ==> i == j)
    && |codes[EOS]| >= 8
    && codes[EOS] == Ones(|codes[EOS]|)
  }

  ghost predicate Proper(table: seq<Entry>) {
    && |table| == 257
    && (forall i :: 0 <= i < 257 ==> table[i].symbol == i)
    && Codable(table)
    && PrefixCode(Codes(table))
  }

  lemma NumberedIsProper(table: seq<Entry>)
    requires |table| == 257 && Numbered(table, 0) && table[EOS] == EOS_ENTRY
    ensures Proper(table)
  {
    SpecCanonical();
    forall i | 0 <= i < 257 ensures table[i].code >= 0 && table[i].bits >= 5 {
      assert First(table[i].bits) >= 0;
    }
    var codes := Codes(table);
    forall i, j | 0 <= i < 257 && 0 <= j < 257 && codes[i] <= codes[j] ensures i == j {
      CanonicalPrefixFree(First, Count, 30, table[i].bits, table[i].code, table[j].bits, table[j].code);
    }
    Pow2Of30();
    AllOnes(30);
  }

  /** Appendix B is a prefix code whose end-of-string symbol is thirty one-bits. */
  lemma SpecIsPrefixCode()
    ensures Proper(HUFFMAN_SPEC)
  {
    SpecNumbered();
    NumberedIsProper(HUFFMAN_SPEC);
  }
}
