/** The two parity-check tables of the FT8 LDPC(174,91) code, as ft8/arrays.h
    declares them (`int Nm[][7]`, `int Mn[][3]`), and the proof that they pass
    the structural checker of Ft8ParityGraph, which yields the code's graph.
    Each row is stored once, in a lookup that bisects on the row index; the
    tables are the sequences of those rows. */
module Ft8Tables {
  import opened Ft8ParityGraph

  /** Row i (0-origin) of Nm: the 1-origin bits of parity check i. */
  function NmRow(i: int): CheckRow
    requires 0 <= i < M
  {
    if i < 41 then
      if i < 20 then
        if i < 10 then
          if i < 5 then
            if i < 2 then
              if i < 1 then
                CheckRow(  4,  31,  59,  91,  92,  96, 153)  // arrays.h:32
              else
                CheckRow(  5,  32,  60,  93, 115, 146,   0)  // arrays.h:33
            else
              if i < 3 then
                CheckRow(  6,  24,  61,  94, 122, 151,   0)  // arrays.h:34
              else
                if i < 4 then
                  CheckRow(  7,  33,  62,  95,  96, 143,   0)  // arrays.h:35
                else
                  CheckRow(  8,  25,  63,  83,  93,  96, 148)  // arrays.h:36
          else
            if i < 7 then
              if i < 6 then
                CheckRow(  6,  32,  64,  97, 126, 138,   0)  // arrays.h:37
              else
                CheckRow(  5,  34,  65,  78,  98, 107, 154)  // arrays.h:38
            else
              if i < 8 then
                CheckRow(  9,  35,  66,  99, 139, 146,   0)  // arrays.h:39
              else
                if i < 9 then
                  CheckRow( 10,  36,  67, 100, 107, 126,   0)  // arrays.h:40
                else
                  CheckRow( 11,  37,  67,  87, 101, 139, 158)  // arrays.h:41
        else
          if i < 15 then
            if i < 12 then
              if i < 11 then
                CheckRow( 12,  38,  68, 102, 105, 155,   0)  // arrays.h:42
              else
                CheckRow( 13,  39,  69, 103, 149, 162,   0)  // arrays.h:43
            else
              if i < 13 then
                CheckRow(  8,  40,  70,  82, 104, 114, 145)  // arrays.h:44
              else
                if i < 14 then
                  CheckRow( 14,  41,  71,  88, 102, 123, 156)  // arrays.h:45
                else
                  CheckRow( 15,  42,  59, 106, 123, 159,   0)  // arrays.h:46
          else
            if i < 17 then
              if i < 16 then
                CheckRow(  1,  33,  72, 106, 107, 157,   0)  // arrays.h:47
              else
                CheckRow( 16,  43,  73, 108, 141, 160,   0)  // arrays.h:48
            else
              if i < 18 then
                CheckRow( 17,  37,  74,  81, 109, 131, 154)  // arrays.h:49
              else
                if i < 19 then
                  CheckRow( 11,  44,  75, 110, 121, 166,   0)  // arrays.h:50
                else
                  CheckRow( 45,  55,  64, 111, 130, 161, 173)  // arrays.h:51
      else
        if i < 30 then
          if i < 25 then
            if i < 22 then
              if i < 21 then
                CheckRow(  8,  46,  71, 112, 119, 166,   0)  // arrays.h:52
              else
                CheckRow( 18,  36,  76,  89, 113, 114, 143)  // arrays.h:53
            else
              if i < 23 then
                CheckRow( 19,  38,  77, 104, 116, 163,   0)  // arrays.h:54
              else
                if i < 24 then
                  CheckRow( 20,  47,  70,  92, 138, 165,   0)  // arrays.h:55
                else
                  CheckRow(  2,  48,  74, 113, 128, 160,   0)  // arrays.h:56
          else
            if i < 27 then
              if i < 26 then
                CheckRow( 21,  45,  78,  83, 117, 121, 151)  // arrays.h:57
              else
                CheckRow( 22,  47,  58, 118, 127, 164,   0)  // arrays.h:58
            else
              if i < 28 then
                CheckRow( 16,  39,  62, 112, 134, 158,   0)  // arrays.h:59
              else
                if i < 29 then
                  CheckRow( 23,  43,  79, 120, 131, 145,   0)  // arrays.h:60
                else
                  CheckRow( 19,  35,  59,  73, 110, 125, 161)  // arrays.h:61
        else
          if i < 35 then
            if i < 32 then
              if i < 31 then
                CheckRow( 20,  36,  63,  94, 136, 161,   0)  // arrays.h:62
              else
                CheckRow( 14,  31,  79,  98, 132, 164,   0)  // arrays.h:63
            else
              if i < 33 then
                CheckRow(  3,  44,  80, 124, 127, 169,   0)  // arrays.h:64
              else
                if i < 34 then
                  CheckRow( 19,  46,  81, 117, 135, 167,   0)  // arrays.h:65
                else
                  CheckRow(  7,  49,  58,  90, 100, 105, 168)  // arrays.h:66
          else
            if i < 38 then
              if i < 36 then
                CheckRow( 12,  50,  61, 118, 119, 144,   0)  // arrays.h:67
              else
                if i < 37 then
                  CheckRow( 13,  51,  64, 114, 118, 157,   0)  // arrays.h:68
                else
                  CheckRow( 24,  52,  76, 129, 148, 149,   0)  // arrays.h:69
            else
              if i < 39 then
                CheckRow( 25,  53,  69,  90, 101, 130, 156)  // arrays.h:70
              else
                if i < 40 then
                  CheckRow( 20,  46,  65,  80, 120, 140, 170)  // arrays.h:71
                else
                  CheckRow( 21,  54,  77, 100, 140, 171,   0)  // arrays.h:72
    else
      if i < 62 then
        if i < 51 then
          if i < 46 then
            if i < 43 then
              if i < 42 then
                CheckRow( 35,  82, 133, 142, 171, 174,   0)  // arrays.h:73
              else
                CheckRow( 14,  30,  83, 113, 125, 170,   0)  // arrays.h:74
            else
              if i < 44 then
                CheckRow(  4,  29,  68, 120, 134, 173,   0)  // arrays.h:75
              else
                if i < 45 then
                  CheckRow(  1,   4,  52,  57,  86, 136, 152)  // arrays.h:76
                else
                  CheckRow( 26,  51,  56,  91, 122, 137, 168)  // arrays.h:77
          else
            if i < 48 then
              if i < 47 then
                CheckRow( 52,  84, 110, 115, 145, 168,   0)  // arrays.h:78
              else
                CheckRow(  7,  50,  81,  99, 132, 173,   0)  // arrays.h:79
            else
              if i < 49 then
                CheckRow( 23,  55,  67,  95, 172, 174,   0)  // arrays.h:80
              else
                if i < 50 then
                  CheckRow( 26,  41,  77, 109, 141, 148,   0)  // arrays.h:81
                else
                  CheckRow(  2,  27,  41,  61,  62, 115, 133)  // arrays.h:82
        else
          if i < 56 then
            if i < 53 then
              if i < 52 then
                CheckRow( 27,  40,  56, 124, 125, 126,   0)  // arrays.h:83
              else
                CheckRow( 18,  49,  55, 124, 141, 167,   0)  // arrays.h:84
            else
              if i < 54 then
                CheckRow(  6,  33,  85, 108, 116, 156,   0)  // arrays.h:85
              else
                if i < 55 then
                  CheckRow( 28,  48,  70,  85, 105, 129, 158)  // arrays.h:86
                else
                  CheckRow(  9,  54,  63, 131, 147, 155,   0)  // arrays.h:87
          else
            if i < 59 then
              if i < 57 then
                CheckRow( 22,  53,  68, 109, 121, 174,   0)  // arrays.h:88
              else
                if i < 58 then
                  CheckRow(  3,  13,  48,  78,  95, 123,   0)  // arrays.h:89
                else
                  CheckRow( 31,  69, 133, 150, 155, 169,   0)  // arrays.h:90
            else
              if i < 60 then
                CheckRow( 12,  43,  66,  89,  97, 135, 159)  // arrays.h:91
              else
                if i < 61 then
                  CheckRow(  5,  39,  75, 102, 136, 167,   0)  // arrays.h:92
                else
                  CheckRow(  2,  54,  86, 101, 135, 164,   0)  // arrays.h:93
      else
        if i < 72 then
          if i < 67 then
            if i < 64 then
              if i < 63 then
                CheckRow( 15,  56,  87, 108, 119, 171,   0)  // arrays.h:94
              else
                CheckRow( 10,  44,  82,  91, 111, 144, 149)  // arrays.h:95
            else
              if i < 65 then
                CheckRow( 23,  34,  71,  94, 127, 153,   0)  // arrays.h:96
              else
                if i < 66 then
                  CheckRow( 11,  49,  88,  92, 142, 157,   0)  // arrays.h:97
                else
                  CheckRow( 29,  34,  87,  97, 147, 162,   0)  // arrays.h:98
          else
            if i < 69 then
              if i < 68 then
                CheckRow( 30,  50,  60,  86, 137, 142, 162)  // arrays.h:99
              else
                CheckRow( 10,  53,  66,  84, 112, 128, 165)  // arrays.h:100
            else
              if i < 70 then
                CheckRow( 22,  57,  85,  93, 140, 159,   0)  // arrays.h:101
              else
                if i < 71 then
                  CheckRow( 28,  32,  72, 103, 132, 166,   0)  // arrays.h:102
                else
                  CheckRow( 28,  29,  84,  88, 117, 143, 150)  // arrays.h:103
        else
          if i < 77 then
            if i < 74 then
              if i < 73 then
                CheckRow(  1,  26,  45,  80, 128, 147,   0)  // arrays.h:104
              else
                CheckRow( 17,  27,  89, 103, 116, 153,   0)  // arrays.h:105
            else
              if i < 75 then
                CheckRow( 51,  57,  98, 163, 165, 172,   0)  // arrays.h:106
              else
                if i < 76 then
                  CheckRow( 21,  37,  73, 138, 152, 169,   0)  // arrays.h:107
                else
                  CheckRow( 16,  47,  76, 130, 137, 154,   0)  // arrays.h:108
          else
            if i < 80 then
              if i < 78 then
                CheckRow(  3,  24,  30,  72, 104, 139,   0)  // arrays.h:109
              else
                if i < 79 then
                  CheckRow(  9,  40,  90, 106, 134, 151,   0)  // arrays.h:110
                else
                  CheckRow( 15,  58,  60,  74, 111, 150, 163)  // arrays.h:111
            else
              if i < 81 then
                CheckRow( 18,  42,  79, 144, 146, 152,   0)  // arrays.h:112
              else
                if i < 82 then
                  CheckRow( 25,  38,  65,  99, 122, 160,   0)  // arrays.h:113
                else
                  CheckRow( 17,  42,  75, 129, 170, 172,   0)  // arrays.h:114
  }

  /** Row i (0-origin) of Mn: the 1-origin parity checks of codeword bit i. */
  function MnRow(i: int): BitRow
    requires 0 <= i < N
  {
    if i < 87 then
      if i < 43 then
        if i < 21 then
          if i < 10 then
            if i < 5 then
              if i < 2 then
                if i < 1 then
                  BitRow(16, 45, 73)  // arrays.h:123
                else
                  BitRow(25, 51, 62)  // arrays.h:124
              else
                if i < 3 then
                  BitRow(33, 58, 78)  // arrays.h:125
                else
                  if i < 4 then
                    BitRow( 1, 44, 45)  // arrays.h:126
                  else
                    BitRow( 2,  7, 61)  // arrays.h:127
            else
              if i < 7 then
                if i < 6 then
                  BitRow( 3,  6, 54)  // arrays.h:128
                else
                  BitRow( 4, 35, 48)  // arrays.h:129
              else
                if i < 8 then
                  BitRow( 5, 13, 21)  // arrays.h:130
                else
                  if i < 9 then
                    BitRow( 8, 56, 79)  // arrays.h:131
                  else
                    BitRow( 9, 64, 69)  // arrays.h:132
          else
            if i < 15 then
              if i < 12 then
                if i < 11 then
                  BitRow(10, 19, 66)  // arrays.h:133
                else
                  BitRow(11, 36, 60)  // arrays.h:134
              else
                if i < 13 then
                  BitRow(12, 37, 58)  // arrays.h:135
                else
                  if i < 14 then
                    BitRow(14, 32, 43)  // arrays.h:136
                  else
                    BitRow(15, 63, 80)  // arrays.h:137
            else
              if i < 18 then
                if i < 16 then
                  BitRow(17, 28, 77)  // arrays.h:138
                else
                  if i < 17 then
                    BitRow(18, 74, 83)  // arrays.h:139
                  else
                    BitRow(22, 53, 81)  // arrays.h:140
              else
                if i < 19 then
                  BitRow(23, 30, 34)  // arrays.h:141
                else
                  if i < 20 then
                    BitRow(24, 31, 40)  // arrays.h:142
                  else
                    BitRow(26, 41, 76)  // arrays.h:143
        else
          if i < 32 then
            if i < 26 then
              if i < 23 then
                if i < 22 then
                  BitRow(27, 57, 70)  // arrays.h:144
                else
                  BitRow(29, 49, 65)  // arrays.h:145
              else
                if i < 24 then
                  BitRow( 3, 38, 78)  // arrays.h:146
                else
                  if i < 25 then
                    BitRow( 5, 39, 82)  // arrays.h:147
                  else
                    BitRow(46, 50, 73)  // arrays.h:148
            else
              if i < 29 then
                if i < 27 then
                  BitRow(51, 52, 74)  // arrays.h:149
                else
                  if i < 28 then
                    BitRow(55, 71, 72)  // arrays.h:150
                  else
                    BitRow(44, 67, 72)  // arrays.h:151
              else
                if i < 30 then
                  BitRow(43, 68, 78)  // arrays.h:152
                else
                  if i < 31 then
                    BitRow( 1, 32, 59)  // arrays.h:153
                  else
                    BitRow( 2,  6, 71)  // arrays.h:154
          else
            if i < 37 then
              if i < 34 then
                if i < 33 then
                  BitRow( 4, 16, 54)  // arrays.h:155
                else
                  BitRow( 7, 65, 67)  // arrays.h:156
              else
                if i < 35 then
                  BitRow( 8, 30, 42)  // arrays.h:157
                else
                  if i < 36 then
                    BitRow( 9, 22, 31)  // arrays.h:158
                  else
                    BitRow(10, 18, 76)  // arrays.h:159
            else
              if i < 40 then
                if i < 38 then
                  BitRow(11, 23, 82)  // arrays.h:160
                else
                  if i < 39 then
                    BitRow(12, 28, 61)  // arrays.h:161
                  else
                    BitRow(13, 52, 79)  // arrays.h:162
              else
                if i < 41 then
                  BitRow(14, 50, 51)  // arrays.h:163
                else
                  if i < 42 then
                    BitRow(15, 81, 83)  // arrays.h:164
                  else
                    BitRow(17, 29, 60)  // arrays.h:165
      else
        if i < 65 then
          if i < 54 then
            if i < 48 then
              if i < 45 then
                if i < 44 then
                  BitRow(19, 33, 64)  // arrays.h:166
                else
                  BitRow(20, 26, 73)  // arrays.h:167
              else
                if i < 46 then
                  BitRow(21, 34, 40)  // arrays.h:168
                else
                  if i < 47 then
                    BitRow(24, 27, 77)  // arrays.h:169
                  else
                    BitRow(25, 55, 58)  // arrays.h:170
            else
              if i < 51 then
                if i < 49 then
                  BitRow(35, 53, 66)  // arrays.h:171
                else
                  if i < 50 then
                    BitRow(36, 48, 68)  // arrays.h:172
                  else
                    BitRow(37, 46, 75)  // arrays.h:173
              else
                if i < 52 then
                  BitRow(38, 45, 47)  // arrays.h:174
                else
                  if i < 53 then
                    BitRow(39, 57, 69)  // arrays.h:175
                  else
                    BitRow(41, 56, 62)  // arrays.h:176
          else
            if i < 59 then
              if i < 56 then
                if i < 55 then
                  BitRow(20, 49, 53)  // arrays.h:177
                else
                  BitRow(46, 52, 63)  // arrays.h:178
              else
                if i < 57 then
                  BitRow(45, 70, 75)  // arrays.h:179
                else
                  if i < 58 then
                    BitRow(27, 35, 80)  // arrays.h:180
                  else
                    BitRow( 1, 15, 30)  // arrays.h:181
            else
              if i < 62 then
                if i < 60 then
                  BitRow( 2, 68, 80)  // arrays.h:182
                else
                  if i < 61 then
                    BitRow( 3, 36, 51)  // arrays.h:183
                  else
                    BitRow( 4, 28, 51)  // arrays.h:184
              else
                if i < 63 then
                  BitRow( 5, 31, 56)  // arrays.h:185
                else
                  if i < 64 then
                    BitRow( 6, 20, 37)  // arrays.h:186
                  else
                    BitRow( 7, 40, 82)  // arrays.h:187
        else
          if i < 76 then
            if i < 70 then
              if i < 67 then
                if i < 66 then
                  BitRow( 8, 60, 69)  // arrays.h:188
                else
                  BitRow( 9, 10, 49)  // arrays.h:189
              else
                if i < 68 then
                  BitRow(11, 44, 57)  // arrays.h:190
                else
                  if i < 69 then
                    BitRow(12, 39, 59)  // arrays.h:191
                  else
                    BitRow(13, 24, 55)  // arrays.h:192
            else
              if i < 73 then
                if i < 71 then
                  BitRow(14, 21, 65)  // arrays.h:193
                else
                  if i < 72 then
                    BitRow(16, 71, 78)  // arrays.h:194
                  else
                    BitRow(17, 30, 76)  // arrays.h:195
              else
                if i < 74 then
                  BitRow(18, 25, 80)  // arrays.h:196
                else
                  if i < 75 then
                    BitRow(19, 61, 83)  // arrays.h:197
                  else
                    BitRow(22, 38, 77)  // arrays.h:198
          else
            if i < 81 then
              if i < 78 then
                if i < 77 then
                  BitRow(23, 41, 50)  // arrays.h:199
                else
                  BitRow( 7, 26, 58)  // arrays.h:200
              else
                if i < 79 then
                  BitRow(29, 32, 81)  // arrays.h:201
                else
                  if i < 80 then
                    BitRow(33, 40, 73)  // arrays.h:202
                  else
                    BitRow(18, 34, 48)  // arrays.h:203
            else
              if i < 84 then
                if i < 82 then
                  BitRow(13, 42, 64)  // arrays.h:204
                else
                  if i < 83 then
                    BitRow( 5, 26, 43)  // arrays.h:205
                  else
                    BitRow(47, 69, 72)  // arrays.h:206
              else
                if i < 85 then
                  BitRow(54, 55, 70)  // arrays.h:207
                else
                  if i < 86 then
                    BitRow(45, 62, 68)  // arrays.h:208
                  else
                    BitRow(10, 63, 67)  // arrays.h:209
    else
      if i < 130 then
        if i < 108 then
          if i < 97 then
            if i < 92 then
              if i < 89 then
                if i < 88 then
                  BitRow(14, 66, 72)  // arrays.h:210
                else
                  BitRow(22, 60, 74)  // arrays.h:211
              else
                if i < 90 then
                  BitRow(35, 39, 79)  // arrays.h:212
                else
                  if i < 91 then
                    BitRow( 1, 46, 64)  // arrays.h:213
                  else
                    BitRow( 1, 24, 66)  // arrays.h:214
            else
              if i < 94 then
                if i < 93 then
                  BitRow( 2,  5, 70)  // arrays.h:215
                else
                  BitRow( 3, 31, 65)  // arrays.h:216
              else
                if i < 95 then
                  BitRow( 4, 49, 58)  // arrays.h:217
                else
                  if i < 96 then
                    BitRow( 1,  4,  5)  // arrays.h:218
                  else
                    BitRow( 6, 60, 67)  // arrays.h:219
          else
            if i < 102 then
              if i < 99 then
                if i < 98 then
                  BitRow( 7, 32, 75)  // arrays.h:220
                else
                  BitRow( 8, 48, 82)  // arrays.h:221
              else
                if i < 100 then
                  BitRow( 9, 35, 41)  // arrays.h:222
                else
                  if i < 101 then
                    BitRow(10, 39, 62)  // arrays.h:223
                  else
                    BitRow(11, 14, 61)  // arrays.h:224
            else
              if i < 105 then
                if i < 103 then
                  BitRow(12, 71, 74)  // arrays.h:225
                else
                  if i < 104 then
                    BitRow(13, 23, 78)  // arrays.h:226
                  else
                    BitRow(11, 35, 55)  // arrays.h:227
              else
                if i < 106 then
                  BitRow(15, 16, 79)  // arrays.h:228
                else
                  if i < 107 then
                    BitRow( 7,  9, 16)  // arrays.h:229
                  else
                    BitRow(17, 54, 63)  // arrays.h:230
        else
          if i < 119 then
            if i < 113 then
              if i < 110 then
                if i < 109 then
                  BitRow(18, 50, 57)  // arrays.h:231
                else
                  BitRow(19, 30, 47)  // arrays.h:232
              else
                if i < 111 then
                  BitRow(20, 64, 80)  // arrays.h:233
                else
                  if i < 112 then
                    BitRow(21, 28, 69)  // arrays.h:234
                  else
                    BitRow(22, 25, 43)  // arrays.h:235
            else
              if i < 116 then
                if i < 114 then
                  BitRow(13, 22, 37)  // arrays.h:236
                else
                  if i < 115 then
                    BitRow( 2, 47, 51)  // arrays.h:237
                  else
                    BitRow(23, 54, 74)  // arrays.h:238
              else
                if i < 117 then
                  BitRow(26, 34, 72)  // arrays.h:239
                else
                  if i < 118 then
                    BitRow(27, 36, 37)  // arrays.h:240
                  else
                    BitRow(21, 36, 63)  // arrays.h:241
          else
            if i < 124 then
              if i < 121 then
                if i < 120 then
                  BitRow(29, 40, 44)  // arrays.h:242
                else
                  BitRow(19, 26, 57)  // arrays.h:243
              else
                if i < 122 then
                  BitRow( 3, 46, 82)  // arrays.h:244
                else
                  if i < 123 then
                    BitRow(14, 15, 58)  // arrays.h:245
                  else
                    BitRow(33, 52, 53)  // arrays.h:246
            else
              if i < 127 then
                if i < 125 then
                  BitRow(30, 43, 52)  // arrays.h:247
                else
                  if i < 126 then
                    BitRow( 6,  9, 52)  // arrays.h:248
                  else
                    BitRow(27, 33, 65)  // arrays.h:249
              else
                if i < 128 then
                  BitRow(25, 69, 73)  // arrays.h:250
                else
                  if i < 129 then
                    BitRow(38, 55, 83)  // arrays.h:251
                  else
                    BitRow(20, 39, 77)  // arrays.h:252
      else
        if i < 152 then
          if i < 141 then
            if i < 135 then
              if i < 132 then
                if i < 131 then
                  BitRow(18, 29, 56)  // arrays.h:253
                else
                  BitRow(32, 48, 71)  // arrays.h:254
              else
                if i < 133 then
                  BitRow(42, 51, 59)  // arrays.h:255
                else
                  if i < 134 then
                    BitRow(28, 44, 79)  // arrays.h:256
                  else
                    BitRow(34, 60, 62)  // arrays.h:257
            else
              if i < 138 then
                if i < 136 then
                  BitRow(31, 45, 61)  // arrays.h:258
                else
                  if i < 137 then
                    BitRow(46, 68, 77)  // arrays.h:259
                  else
                    BitRow( 6, 24, 76)  // arrays.h:260
              else
                if i < 139 then
                  BitRow( 8, 10, 78)  // arrays.h:261
                else
                  if i < 140 then
                    BitRow(40, 41, 70)  // arrays.h:262
                  else
                    BitRow(17, 50, 53)  // arrays.h:263
          else
            if i < 146 then
              if i < 143 then
                if i < 142 then
                  BitRow(42, 66, 68)  // arrays.h:264
                else
                  BitRow( 4, 22, 72)  // arrays.h:265
              else
                if i < 144 then
                  BitRow(36, 64, 81)  // arrays.h:266
                else
                  if i < 145 then
                    BitRow(13, 29, 47)  // arrays.h:267
                  else
                    BitRow( 2,  8, 81)  // arrays.h:268
            else
              if i < 149 then
                if i < 147 then
                  BitRow(56, 67, 73)  // arrays.h:269
                else
                  if i < 148 then
                    BitRow( 5, 38, 50)  // arrays.h:270
                  else
                    BitRow(12, 38, 64)  // arrays.h:271
              else
                if i < 150 then
                  BitRow(59, 72, 80)  // arrays.h:272
                else
                  if i < 151 then
                    BitRow( 3, 26, 79)  // arrays.h:273
                  else
                    BitRow(45, 76, 81)  // arrays.h:274
        else
          if i < 163 then
            if i < 157 then
              if i < 154 then
                if i < 153 then
                  BitRow( 1, 65, 74)  // arrays.h:275
                else
                  BitRow( 7, 18, 77)  // arrays.h:276
              else
                if i < 155 then
                  BitRow(11, 56, 59)  // arrays.h:277
                else
                  if i < 156 then
                    BitRow(14, 39, 54)  // arrays.h:278
                  else
                    BitRow(16, 37, 66)  // arrays.h:279
            else
              if i < 160 then
                if i < 158 then
                  BitRow(10, 28, 55)  // arrays.h:280
                else
                  if i < 159 then
                    BitRow(15, 60, 70)  // arrays.h:281
                  else
                    BitRow(17, 25, 82)  // arrays.h:282
              else
                if i < 161 then
                  BitRow(20, 30, 31)  // arrays.h:283
                else
                  if i < 162 then
                    BitRow(12, 67, 68)  // arrays.h:284
                  else
                    BitRow(23, 75, 80)  // arrays.h:285
          else
            if i < 168 then
              if i < 165 then
                if i < 164 then
                  BitRow(27, 32, 62)  // arrays.h:286
                else
                  BitRow(24, 69, 75)  // arrays.h:287
              else
                if i < 166 then
                  BitRow(19, 21, 71)  // arrays.h:288
                else
                  if i < 167 then
                    BitRow(34, 53, 61)  // arrays.h:289
                  else
                    BitRow(35, 46, 47)  // arrays.h:290
            else
              if i < 171 then
                if i < 169 then
                  BitRow(33, 59, 76)  // arrays.h:291
                else
                  if i < 170 then
                    BitRow(40, 43, 83)  // arrays.h:292
                  else
                    BitRow(41, 42, 63)  // arrays.h:293
              else
                if i < 172 then
                  BitRow(49, 75, 83)  // arrays.h:294
                else
                  if i < 173 then
                    BitRow(20, 44, 48)  // arrays.h:295
                  else
                    BitRow(42, 49, 57)  // arrays.h:296
  }

  /** The table Nm: 83 rows of 7 entries. */
  function Nm(): seq<CheckRow> {
    seq(M, NmRow)
  }

  /** The table Mn: 174 rows of 3 entries. */
  function Mn(): seq<BitRow> {
    seq(N, MnRow)
  }

  // The checker's row conditions, phrased on the row lookups so that each
  // row can be settled by evaluation.

  predicate ListedInMn(c: int, x: int) {
    x == 0 || (1 <= x <= N && MnRow(x - 1).Mentions(c + 1))
  }

  predicate ListedInNm(b: int, y: int) {
    1 <= y <= M && NmRow(y - 1).Mentions(b + 1)
  }

  predicate NmRowChecked(c: int)
    requires 0 <= c < M
  {
    var r := NmRow(c);
    && CheckRowOk(r)
    && ListedInMn(c, r.b1) && ListedInMn(c, r.b2) && ListedInMn(c, r.b3) && ListedInMn(c, r.b4)
    && ListedInMn(c, r.b5) && ListedInMn(c, r.b6) && ListedInMn(c, r.b7)
  }

  predicate MnRowChecked(b: int)
    requires 0 <= b < N
  {
    var r := MnRow(b);
    BitRowOk(r) && ListedInNm(b, r.c1) && ListedInNm(b, r.c2) && ListedInNm(b, r.c3)
  }

  lemma NmRowsChecked0()
    ensures forall c | 0 <= c < 6 :: NmRowChecked(c)
  {
    assert NmRowChecked(0) by {
      assert ListedInMn(0, 4); assert ListedInMn(0, 31); assert ListedInMn(0, 59); assert ListedInMn(0, 91); assert ListedInMn(0, 92); assert ListedInMn(0, 96); assert ListedInMn(0, 153);
    }
    assert NmRowChecked(1) by {
      assert ListedInMn(1, 5); assert ListedInMn(1, 32); assert ListedInMn(1, 60); assert ListedInMn(1, 93); assert ListedInMn(1, 115); assert ListedInMn(1, 146); assert ListedInMn(1, 0);
    }
    assert NmRowChecked(2) by {
      assert ListedInMn(2, 6); assert ListedInMn(2, 24); assert ListedInMn(2, 61); assert ListedInMn(2, 94); assert ListedInMn(2, 122); assert ListedInMn(2, 151); assert ListedInMn(2, 0);
    }
    assert NmRowChecked(3) by {
      assert ListedInMn(3, 7); assert ListedInMn(3, 33); assert ListedInMn(3, 62); assert ListedInMn(3, 95); assert ListedInMn(3, 96); assert ListedInMn(3, 143); assert ListedInMn(3, 0);
    }
    assert NmRowChecked(4) by {
      assert ListedInMn(4, 8); assert ListedInMn(4, 25); assert ListedInMn(4, 63); assert ListedInMn(4, 83); assert ListedInMn(4, 93); assert ListedInMn(4, 96); assert ListedInMn(4, 148);
    }
    assert NmRowChecked(5) by {
      assert ListedInMn(5, 6); assert ListedInMn(5, 32); assert ListedInMn(5, 64); assert ListedInMn(5, 97); assert ListedInMn(5, 126); assert ListedInMn(5, 138); assert ListedInMn(5, 0);
    }
  }

  lemma NmRowsChecked6()
    ensures forall c | 6 <= c < 12 :: NmRowChecked(c)
  {
    assert NmRowChecked(6) by {
      assert ListedInMn(6, 5); assert ListedInMn(6, 34); assert ListedInMn(6, 65); assert ListedInMn(6, 78); assert ListedInMn(6, 98); assert ListedInMn(6, 107); assert ListedInMn(6, 154);
    }
    assert NmRowChecked(7) by {
      assert ListedInMn(7, 9); assert ListedInMn(7, 35); assert ListedInMn(7, 66); assert ListedInMn(7, 99); assert ListedInMn(7, 139); assert ListedInMn(7, 146); assert ListedInMn(7, 0);
    }
    assert NmRowChecked(8) by {
      assert ListedInMn(8, 10); assert ListedInMn(8, 36); assert ListedInMn(8, 67); assert ListedInMn(8, 100); assert ListedInMn(8, 107); assert ListedInMn(8, 126); assert ListedInMn(8, 0);
    }
    assert NmRowChecked(9) by {
      assert ListedInMn(9, 11); assert ListedInMn(9, 37); assert ListedInMn(9, 67); assert ListedInMn(9, 87); assert ListedInMn(9, 101); assert ListedInMn(9, 139); assert ListedInMn(9, 158);
    }
    assert NmRowChecked(10) by {
      assert ListedInMn(10, 12); assert ListedInMn(10, 38); assert ListedInMn(10, 68); assert ListedInMn(10, 102); assert ListedInMn(10, 105); assert ListedInMn(10, 155); assert ListedInMn(10, 0);
    }
    assert NmRowChecked(11) by {
      assert ListedInMn(11, 13); assert ListedInMn(11, 39); assert ListedInMn(11, 69); assert ListedInMn(11, 103); assert ListedInMn(11, 149); assert ListedInMn(11, 162); assert ListedInMn(11, 0);
    }
  }

  lemma NmRowsChecked12()
    ensures forall c | 12 <= c < 18 :: NmRowChecked(c)
  {
    assert NmRowChecked(12) by {
      assert ListedInMn(12, 8); assert ListedInMn(12, 40); assert ListedInMn(12, 70); assert ListedInMn(12, 82); assert ListedInMn(12, 104); assert ListedInMn(12, 114); assert ListedInMn(12, 145);
    }
    assert NmRowChecked(13) by {
      assert ListedInMn(13, 14); assert ListedInMn(13, 41); assert ListedInMn(13, 71); assert ListedInMn(13, 88); assert ListedInMn(13, 102); assert ListedInMn(13, 123); assert ListedInMn(13, 156);
    }
    assert NmRowChecked(14) by {
      assert ListedInMn(14, 15); assert ListedInMn(14, 42); assert ListedInMn(14, 59); assert ListedInMn(14, 106); assert ListedInMn(14, 123); assert ListedInMn(14, 159); assert ListedInMn(14, 0);
    }
    assert NmRowChecked(15) by {
      assert ListedInMn(15, 1); assert ListedInMn(15, 33); assert ListedInMn(15, 72); assert ListedInMn(15, 106); assert ListedInMn(15, 107); assert ListedInMn(15, 157); assert ListedInMn(15, 0);
    }
    assert NmRowChecked(16) by {
      assert ListedInMn(16, 16); assert ListedInMn(16, 43); assert ListedInMn(16, 73); assert ListedInMn(16, 108); assert ListedInMn(16, 141); assert ListedInMn(16, 160); assert ListedInMn(16, 0);
    }
    assert NmRowChecked(17) by {
      assert ListedInMn(17, 17); assert ListedInMn(17, 37); assert ListedInMn(17, 74); assert ListedInMn(17, 81); assert ListedInMn(17, 109); assert ListedInMn(17, 131); assert ListedInMn(17, 154);
    }
  }

  lemma NmRowsChecked18()
    ensures forall c | 18 <= c < 24 :: NmRowChecked(c)
  {
    assert NmRowChecked(18) by {
      assert ListedInMn(18, 11); assert ListedInMn(18, 44); assert ListedInMn(18, 75); assert ListedInMn(18, 110); assert ListedInMn(18, 121); assert ListedInMn(18, 166); assert ListedInMn(18, 0);
    }
    assert NmRowChecked(19) by {
      assert ListedInMn(19, 45); assert ListedInMn(19, 55); assert ListedInMn(19, 64); assert ListedInMn(19, 111); assert ListedInMn(19, 130); assert ListedInMn(19, 161); assert ListedInMn(19, 173);
    }
    assert NmRowChecked(20) by {
      assert ListedInMn(20, 8); assert ListedInMn(20, 46); assert ListedInMn(20, 71); assert ListedInMn(20, 112); assert ListedInMn(20, 119); assert ListedInMn(20, 166); assert ListedInMn(20, 0);
    }
    assert NmRowChecked(21) by {
      assert ListedInMn(21, 18); assert ListedInMn(21, 36); assert ListedInMn(21, 76); assert ListedInMn(21, 89); assert ListedInMn(21, 113); assert ListedInMn(21, 114); assert ListedInMn(21, 143);
    }
    assert NmRowChecked(22) by {
      assert ListedInMn(22, 19); assert ListedInMn(22, 38); assert ListedInMn(22, 77); assert ListedInMn(22, 104); assert ListedInMn(22, 116); assert ListedInMn(22, 163); assert ListedInMn(22, 0);
    }
    assert NmRowChecked(23) by {
      assert ListedInMn(23, 20); assert ListedInMn(23, 47); assert ListedInMn(23, 70); assert ListedInMn(23, 92); assert ListedInMn(23, 138); assert ListedInMn(23, 165); assert ListedInMn(23, 0);
    }
  }

  lemma NmRowsChecked24()
    ensures forall c | 24 <= c < 30 :: NmRowChecked(c)
  {
    assert NmRowChecked(24) by {
      assert ListedInMn(24, 2); assert ListedInMn(24, 48); assert ListedInMn(24, 74); assert ListedInMn(24, 113); assert ListedInMn(24, 128); assert ListedInMn(24, 160); assert ListedInMn(24, 0);
    }
    assert NmRowChecked(25) by {
      assert ListedInMn(25, 21); assert ListedInMn(25, 45); assert ListedInMn(25, 78); assert ListedInMn(25, 83); assert ListedInMn(25, 117); assert ListedInMn(25, 121); assert ListedInMn(25, 151);
    }
    assert NmRowChecked(26) by {
      assert ListedInMn(26, 22); assert ListedInMn(26, 47); assert ListedInMn(26, 58); assert ListedInMn(26, 118); assert ListedInMn(26, 127); assert ListedInMn(26, 164); assert ListedInMn(26, 0);
    }
    assert NmRowChecked(27) by {
      assert ListedInMn(27, 16); assert ListedInMn(27, 39); assert ListedInMn(27, 62); assert ListedInMn(27, 112); assert ListedInMn(27, 134); assert ListedInMn(27, 158); assert ListedInMn(27, 0);
    }
    assert NmRowChecked(28) by {
      assert ListedInMn(28, 23); assert ListedInMn(28, 43); assert ListedInMn(28, 79); assert ListedInMn(28, 120); assert ListedInMn(28, 131); assert ListedInMn(28, 145); assert ListedInMn(28, 0);
    }
    assert NmRowChecked(29) by {
      assert ListedInMn(29, 19); assert ListedInMn(29, 35); assert ListedInMn(29, 59); assert ListedInMn(29, 73); assert ListedInMn(29, 110); assert ListedInMn(29, 125); assert ListedInMn(29, 161);
    }
  }

  lemma NmRowsChecked30()
    ensures forall c | 30 <= c < 36 :: NmRowChecked(c)
  {
    assert NmRowChecked(30) by {
      assert ListedInMn(30, 20); assert ListedInMn(30, 36); assert ListedInMn(30, 63); assert ListedInMn(30, 94); assert ListedInMn(30, 136); assert ListedInMn(30, 161); assert ListedInMn(30, 0);
    }
    assert NmRowChecked(31) by {
      assert ListedInMn(31, 14); assert ListedInMn(31, 31); assert ListedInMn(31, 79); assert ListedInMn(31, 98); assert ListedInMn(31, 132); assert ListedInMn(31, 164); assert ListedInMn(31, 0);
    }
    assert NmRowChecked(32) by {
      assert ListedInMn(32, 3); assert ListedInMn(32, 44); assert ListedInMn(32, 80); assert ListedInMn(32, 124); assert ListedInMn(32, 127); assert ListedInMn(32, 169); assert ListedInMn(32, 0);
    }
    assert NmRowChecked(33) by {
      assert ListedInMn(33, 19); assert ListedInMn(33, 46); assert ListedInMn(33, 81); assert ListedInMn(33, 117); assert ListedInMn(33, 135); assert ListedInMn(33, 167); assert ListedInMn(33, 0);
    }
    assert NmRowChecked(34) by {
      assert ListedInMn(34, 7); assert ListedInMn(34, 49); assert ListedInMn(34, 58); assert ListedInMn(34, 90); assert ListedInMn(34, 100); assert ListedInMn(34, 105); assert ListedInMn(34, 168);
    }
    assert NmRowChecked(35) by {
      assert ListedInMn(35, 12); assert ListedInMn(35, 50); assert ListedInMn(35, 61); assert ListedInMn(35, 118); assert ListedInMn(35, 119); assert ListedInMn(35, 144); assert ListedInMn(35, 0);
    }
  }

  lemma NmRowsChecked36()
    ensures forall c | 36 <= c < 42 :: NmRowChecked(c)
  {
    assert NmRowChecked(36) by {
      assert ListedInMn(36, 13); assert ListedInMn(36, 51); assert ListedInMn(36, 64); assert ListedInMn(36, 114); assert ListedInMn(36, 118); assert ListedInMn(36, 157); assert ListedInMn(36, 0);
    }
    assert NmRowChecked(37) by {
      assert ListedInMn(37, 24); assert ListedInMn(37, 52); assert ListedInMn(37, 76); assert ListedInMn(37, 129); assert ListedInMn(37, 148); assert ListedInMn(37, 149); assert ListedInMn(37, 0);
    }
    assert NmRowChecked(38) by {
      assert ListedInMn(38, 25); assert ListedInMn(38, 53); assert ListedInMn(38, 69); assert ListedInMn(38, 90); assert ListedInMn(38, 101); assert ListedInMn(38, 130); assert ListedInMn(38, 156);
    }
    assert NmRowChecked(39) by {
      assert ListedInMn(39, 20); assert ListedInMn(39, 46); assert ListedInMn(39, 65); assert ListedInMn(39, 80); assert ListedInMn(39, 120); assert ListedInMn(39, 140); assert ListedInMn(39, 170);
    }
    assert NmRowChecked(40) by {
      assert ListedInMn(40, 21); assert ListedInMn(40, 54); assert ListedInMn(40, 77); assert ListedInMn(40, 100); assert ListedInMn(40, 140); assert ListedInMn(40, 171); assert ListedInMn(40, 0);
    }
    assert NmRowChecked(41) by {
      assert ListedInMn(41, 35); assert ListedInMn(41, 82); assert ListedInMn(41, 133); assert ListedInMn(41, 142); assert ListedInMn(41, 171); assert ListedInMn(41, 174); assert ListedInMn(41, 0);
    }
  }

  lemma NmRowsChecked42()
    ensures forall c | 42 <= c < 48 :: NmRowChecked(c)
  {
    assert NmRowChecked(42) by {
      assert ListedInMn(42, 14); assert ListedInMn(42, 30); assert ListedInMn(42, 83); assert ListedInMn(42, 113); assert ListedInMn(42, 125); assert ListedInMn(42, 170); assert ListedInMn(42, 0);
    }
    assert NmRowChecked(43) by {
      assert ListedInMn(43, 4); assert ListedInMn(43, 29); assert ListedInMn(43, 68); assert ListedInMn(43, 120); assert ListedInMn(43, 134); assert ListedInMn(43, 173); assert ListedInMn(43, 0);
    }
    assert NmRowChecked(44) by {
      assert ListedInMn(44, 1); assert ListedInMn(44, 4); assert ListedInMn(44, 52); assert ListedInMn(44, 57); assert ListedInMn(44, 86); assert ListedInMn(44, 136); assert ListedInMn(44, 152);
    }
    assert NmRowChecked(45) by {
      assert ListedInMn(45, 26); assert ListedInMn(45, 51); assert ListedInMn(45, 56); assert ListedInMn(45, 91); assert ListedInMn(45, 122); assert ListedInMn(45, 137); assert ListedInMn(45, 168);
    }
    assert NmRowChecked(46) by {
      assert ListedInMn(46, 52); assert ListedInMn(46, 84); assert ListedInMn(46, 110); assert ListedInMn(46, 115); assert ListedInMn(46, 145); assert ListedInMn(46, 168); assert ListedInMn(46, 0);
    }
    assert NmRowChecked(47) by {
      assert ListedInMn(47, 7); assert ListedInMn(47, 50); assert ListedInMn(47, 81); assert ListedInMn(47, 99); assert ListedInMn(47, 132); assert ListedInMn(47, 173); assert ListedInMn(47, 0);
    }
  }

  lemma NmRowsChecked48()
    ensures forall c | 48 <= c < 54 :: NmRowChecked(c)
  {
    assert NmRowChecked(48) by {
      assert ListedInMn(48, 23); assert ListedInMn(48, 55); assert ListedInMn(48, 67); assert ListedInMn(48, 95); assert ListedInMn(48, 172); assert ListedInMn(48, 174); assert ListedInMn(48, 0);
    }
    assert NmRowChecked(49) by {
      assert ListedInMn(49, 26); assert ListedInMn(49, 41); assert ListedInMn(49, 77); assert ListedInMn(49, 109); assert ListedInMn(49, 141); assert ListedInMn(49, 148); assert ListedInMn(49, 0);
    }
    assert NmRowChecked(50) by {
      assert ListedInMn(50, 2); assert ListedInMn(50, 27); assert ListedInMn(50, 41); assert ListedInMn(50, 61); assert ListedInMn(50, 62); assert ListedInMn(50, 115); assert ListedInMn(50, 133);
    }
    assert NmRowChecked(51) by {
      assert ListedInMn(51, 27); assert ListedInMn(51, 40); assert ListedInMn(51, 56); assert ListedInMn(51, 124); assert ListedInMn(51, 125); assert ListedInMn(51, 126); assert ListedInMn(51, 0);
    }
    assert NmRowChecked(52) by {
      assert ListedInMn(52, 18); assert ListedInMn(52, 49); assert ListedInMn(52, 55); assert ListedInMn(52, 124); assert ListedInMn(52, 141); assert ListedInMn(52, 167); assert ListedInMn(52, 0);
    }
    assert NmRowChecked(53) by {
      assert ListedInMn(53, 6); assert ListedInMn(53, 33); assert ListedInMn(53, 85); assert ListedInMn(53, 108); assert ListedInMn(53, 116); assert ListedInMn(53, 156); assert ListedInMn(53, 0);
    }
  }

  lemma NmRowsChecked54()
    ensures forall c | 54 <= c < 60 :: NmRowChecked(c)
  {
    assert NmRowChecked(54) by {
      assert ListedInMn(54, 28); assert ListedInMn(54, 48); assert ListedInMn(54, 70); assert ListedInMn(54, 85); assert ListedInMn(54, 105); assert ListedInMn(54, 129); assert ListedInMn(54, 158);
    }
    assert NmRowChecked(55) by {
      assert ListedInMn(55, 9); assert ListedInMn(55, 54); assert ListedInMn(55, 63); assert ListedInMn(55, 131); assert ListedInMn(55, 147); assert ListedInMn(55, 155); assert ListedInMn(55, 0);
    }
    assert NmRowChecked(56) by {
      assert ListedInMn(56, 22); assert ListedInMn(56, 53); assert ListedInMn(56, 68); assert ListedInMn(56, 109); assert ListedInMn(56, 121); assert ListedInMn(56, 174); assert ListedInMn(56, 0);
    }
    assert NmRowChecked(57) by {
      assert ListedInMn(57, 3); assert ListedInMn(57, 13); assert ListedInMn(57, 48); assert ListedInMn(57, 78); assert ListedInMn(57, 95); assert ListedInMn(57, 123); assert ListedInMn(57, 0);
    }
    assert NmRowChecked(58) by {
      assert ListedInMn(58, 31); assert ListedInMn(58, 69); assert ListedInMn(58, 133); assert ListedInMn(58, 150); assert ListedInMn(58, 155); assert ListedInMn(58, 169); assert ListedInMn(58, 0);
    }
    assert NmRowChecked(59) by {
      assert ListedInMn(59, 12); assert ListedInMn(59, 43); assert ListedInMn(59, 66); assert ListedInMn(59, 89); assert ListedInMn(59, 97); assert ListedInMn(59, 135); assert ListedInMn(59, 159);
    }
  }

  lemma NmRowsChecked60()
    ensures forall c | 60 <= c < 66 :: NmRowChecked(c)
  {
    assert NmRowChecked(60) by {
      assert ListedInMn(60, 5); assert ListedInMn(60, 39); assert ListedInMn(60, 75); assert ListedInMn(60, 102); assert ListedInMn(60, 136); assert ListedInMn(60, 167); assert ListedInMn(60, 0);
    }
    assert NmRowChecked(61) by {
      assert ListedInMn(61, 2); assert ListedInMn(61, 54); assert ListedInMn(61, 86); assert ListedInMn(61, 101); assert ListedInMn(61, 135); assert ListedInMn(61, 164); assert ListedInMn(61, 0);
    }
    assert NmRowChecked(62) by {
      assert ListedInMn(62, 15); assert ListedInMn(62, 56); assert ListedInMn(62, 87); assert ListedInMn(62, 108); assert ListedInMn(62, 119); assert ListedInMn(62, 171); assert ListedInMn(62, 0);
    }
    assert NmRowChecked(63) by {
      assert ListedInMn(63, 10); assert ListedInMn(63, 44); assert ListedInMn(63, 82); assert ListedInMn(63, 91); assert ListedInMn(63, 111); assert ListedInMn(63, 144); assert ListedInMn(63, 149);
    }
    assert NmRowChecked(64) by {
      assert ListedInMn(64, 23); assert ListedInMn(64, 34); assert ListedInMn(64, 71); assert ListedInMn(64, 94); assert ListedInMn(64, 127); assert ListedInMn(64, 153); assert ListedInMn(64, 0);
    }
    assert NmRowChecked(65) by {
      assert ListedInMn(65, 11); assert ListedInMn(65, 49); assert ListedInMn(65, 88); assert ListedInMn(65, 92); assert ListedInMn(65, 142); assert ListedInMn(65, 157); assert ListedInMn(65, 0);
    }
  }

  lemma NmRowsChecked66()
    ensures forall c | 66 <= c < 72 :: NmRowChecked(c)
  {
    assert NmRowChecked(66) by {
      assert ListedInMn(66, 29); assert ListedInMn(66, 34); assert ListedInMn(66, 87); assert ListedInMn(66, 97); assert ListedInMn(66, 147); assert ListedInMn(66, 162); assert ListedInMn(66, 0);
    }
    assert NmRowChecked(67) by {
      assert ListedInMn(67, 30); assert ListedInMn(67, 50); assert ListedInMn(67, 60); assert ListedInMn(67, 86); assert ListedInMn(67, 137); assert ListedInMn(67, 142); assert ListedInMn(67, 162);
    }
    assert NmRowChecked(68) by {
      assert ListedInMn(68, 10); assert ListedInMn(68, 53); assert ListedInMn(68, 66); assert ListedInMn(68, 84); assert ListedInMn(68, 112); assert ListedInMn(68, 128); assert ListedInMn(68, 165);
    }
    assert NmRowChecked(69) by {
      assert ListedInMn(69, 22); assert ListedInMn(69, 57); assert ListedInMn(69, 85); assert ListedInMn(69, 93); assert ListedInMn(69, 140); assert ListedInMn(69, 159); assert ListedInMn(69, 0);
    }
    assert NmRowChecked(70) by {
      assert ListedInMn(70, 28); assert ListedInMn(70, 32); assert ListedInMn(70, 72); assert ListedInMn(70, 103); assert ListedInMn(70, 132); assert ListedInMn(70, 166); assert ListedInMn(70, 0);
    }
    assert NmRowChecked(71) by {
      assert ListedInMn(71, 28); assert ListedInMn(71, 29); assert ListedInMn(71, 84); assert ListedInMn(71, 88); assert ListedInMn(71, 117); assert ListedInMn(71, 143); assert ListedInMn(71, 150);
    }
  }

  lemma NmRowsChecked72()
    ensures forall c | 72 <= c < 78 :: NmRowChecked(c)
  {
    assert NmRowChecked(72) by {
      assert ListedInMn(72, 1); assert ListedInMn(72, 26); assert ListedInMn(72, 45); assert ListedInMn(72, 80); assert ListedInMn(72, 128); assert ListedInMn(72, 147); assert ListedInMn(72, 0);
    }
    assert NmRowChecked(73) by {
      assert ListedInMn(73, 17); assert ListedInMn(73, 27); assert ListedInMn(73, 89); assert ListedInMn(73, 103); assert ListedInMn(73, 116); assert ListedInMn(73, 153); assert ListedInMn(73, 0);
    }
    assert NmRowChecked(74) by {
      assert ListedInMn(74, 51); assert ListedInMn(74, 57); assert ListedInMn(74, 98); assert ListedInMn(74, 163); assert ListedInMn(74, 165); assert ListedInMn(74, 172); assert ListedInMn(74, 0);
    }
    assert NmRowChecked(75) by {
      assert ListedInMn(75, 21); assert ListedInMn(75, 37); assert ListedInMn(75, 73); assert ListedInMn(75, 138); assert ListedInMn(75, 152); assert ListedInMn(75, 169); assert ListedInMn(75, 0);
    }
    assert NmRowChecked(76) by {
      assert ListedInMn(76, 16); assert ListedInMn(76, 47); assert ListedInMn(76, 76); assert ListedInMn(76, 130); assert ListedInMn(76, 137); assert ListedInMn(76, 154); assert ListedInMn(76, 0);
    }
    assert NmRowChecked(77) by {
      assert ListedInMn(77, 3); assert ListedInMn(77, 24); assert ListedInMn(77, 30); assert ListedInMn(77, 72); assert ListedInMn(77, 104); assert ListedInMn(77, 139); assert ListedInMn(77, 0);
    }
  }

  lemma NmRowsChecked78()
    ensures forall c | 78 <= c < 83 :: NmRowChecked(c)
  {
    assert NmRowChecked(78) by {
      assert ListedInMn(78, 9); assert ListedInMn(78, 40); assert ListedInMn(78, 90); assert ListedInMn(78, 106); assert ListedInMn(78, 134); assert ListedInMn(78, 151); assert ListedInMn(78, 0);
    }
    assert NmRowChecked(79) by {
      assert ListedInMn(79, 15); assert ListedInMn(79, 58); assert ListedInMn(79, 60); assert ListedInMn(79, 74); assert ListedInMn(79, 111); assert ListedInMn(79, 150); assert ListedInMn(79, 163);
    }
    assert NmRowChecked(80) by {
      assert ListedInMn(80, 18); assert ListedInMn(80, 42); assert ListedInMn(80, 79); assert ListedInMn(80, 144); assert ListedInMn(80, 146); assert ListedInMn(80, 152); assert ListedInMn(80, 0);
    }
    assert NmRowChecked(81) by {
      assert ListedInMn(81, 25); assert ListedInMn(81, 38); assert ListedInMn(81, 65); assert ListedInMn(81, 99); assert ListedInMn(81, 122); assert ListedInMn(81, 160); assert ListedInMn(81, 0);
    }
    assert NmRowChecked(82) by {
      assert ListedInMn(82, 17); assert ListedInMn(82, 42); assert ListedInMn(82, 75); assert ListedInMn(82, 129); assert ListedInMn(82, 170); assert ListedInMn(82, 172); assert ListedInMn(82, 0);
    }
  }

  lemma MnRowsChecked0()
    ensures forall b | 0 <= b < 8 :: MnRowChecked(b)
  {
    assert MnRowChecked(0) by {
      assert ListedInNm(0, 16); assert ListedInNm(0, 45); assert ListedInNm(0, 73);
    }
    assert MnRowChecked(1) by {
      assert ListedInNm(1, 25); assert ListedInNm(1, 51); assert ListedInNm(1, 62);
    }
    assert MnRowChecked(2) by {
      assert ListedInNm(2, 33); assert ListedInNm(2, 58); assert ListedInNm(2, 78);
    }
    assert MnRowChecked(3) by {
      assert ListedInNm(3, 1); assert ListedInNm(3, 44); assert ListedInNm(3, 45);
    }
    assert MnRowChecked(4) by {
      assert ListedInNm(4, 2); assert ListedInNm(4, 7); assert ListedInNm(4, 61);
    }
    assert MnRowChecked(5) by {
      assert ListedInNm(5, 3); assert ListedInNm(5, 6); assert ListedInNm(5, 54);
    }
    assert MnRowChecked(6) by {
      assert ListedInNm(6, 4); assert ListedInNm(6, 35); assert ListedInNm(6, 48);
    }
    assert MnRowChecked(7) by {
      assert ListedInNm(7, 5); assert ListedInNm(7, 13); assert ListedInNm(7, 21);
    }
  }

  lemma MnRowsChecked8()
    ensures forall b | 8 <= b < 16 :: MnRowChecked(b)
  {
    assert MnRowChecked(8) by {
      assert ListedInNm(8, 8); assert ListedInNm(8, 56); assert ListedInNm(8, 79);
    }
    assert MnRowChecked(9) by {
      assert ListedInNm(9, 9); assert ListedInNm(9, 64); assert ListedInNm(9, 69);
    }
    assert MnRowChecked(10) by {
      assert ListedInNm(10, 10); assert ListedInNm(10, 19); assert ListedInNm(10, 66);
    }
    assert MnRowChecked(11) by {
      assert ListedInNm(11, 11); assert ListedInNm(11, 36); assert ListedInNm(11, 60);
    }
    assert MnRowChecked(12) by {
      assert ListedInNm(12, 12); assert ListedInNm(12, 37); assert ListedInNm(12, 58);
    }
    assert MnRowChecked(13) by {
      assert ListedInNm(13, 14); assert ListedInNm(13, 32); assert ListedInNm(13, 43);
    }
    assert MnRowChecked(14) by {
      assert ListedInNm(14, 15); assert ListedInNm(14, 63); assert ListedInNm(14, 80);
    }
    assert MnRowChecked(15) by {
      assert ListedInNm(15, 17); assert ListedInNm(15, 28); assert ListedInNm(15, 77);
    }
  }

  lemma MnRowsChecked16()
    ensures forall b | 16 <= b < 24 :: MnRowChecked(b)
  {
    assert MnRowChecked(16) by {
      assert ListedInNm(16, 18); assert ListedInNm(16, 74); assert ListedInNm(16, 83);
    }
    assert MnRowChecked(17) by {
      assert ListedInNm(17, 22); assert ListedInNm(17, 53); assert ListedInNm(17, 81);
    }
    assert MnRowChecked(18) by {
      assert ListedInNm(18, 23); assert ListedInNm(18, 30); assert ListedInNm(18, 34);
    }
    assert MnRowChecked(19) by {
      assert ListedInNm(19, 24); assert ListedInNm(19, 31); assert ListedInNm(19, 40);
    }
    assert MnRowChecked(20) by {
      assert ListedInNm(20, 26); assert ListedInNm(20, 41); assert ListedInNm(20, 76);
    }
    assert MnRowChecked(21) by {
      assert ListedInNm(21, 27); assert ListedInNm(21, 57); assert ListedInNm(21, 70);
    }
    assert MnRowChecked(22) by {
      assert ListedInNm(22, 29); assert ListedInNm(22, 49); assert ListedInNm(22, 65);
    }
    assert MnRowChecked(23) by {
      assert ListedInNm(23, 3); assert ListedInNm(23, 38); assert ListedInNm(23, 78);
    }
  }

  lemma MnRowsChecked24()
    ensures forall b | 24 <= b < 32 :: MnRowChecked(b)
  {
    assert MnRowChecked(24) by {
      assert ListedInNm(24, 5); assert ListedInNm(24, 39); assert ListedInNm(24, 82);
    }
    assert MnRowChecked(25) by {
      assert ListedInNm(25, 46); assert ListedInNm(25, 50); assert ListedInNm(25, 73);
    }
    assert MnRowChecked(26) by {
      assert ListedInNm(26, 51); assert ListedInNm(26, 52); assert ListedInNm(26, 74);
    }
    assert MnRowChecked(27) by {
      assert ListedInNm(27, 55); assert ListedInNm(27, 71); assert ListedInNm(27, 72);
    }
    assert MnRowChecked(28) by {
      assert ListedInNm(28, 44); assert ListedInNm(28, 67); assert ListedInNm(28, 72);
    }
    assert MnRowChecked(29) by {
      assert ListedInNm(29, 43); assert ListedInNm(29, 68); assert ListedInNm(29, 78);
    }
    assert MnRowChecked(30) by {
      assert ListedInNm(30, 1); assert ListedInNm(30, 32); assert ListedInNm(30, 59);
    }
    assert MnRowChecked(31) by {
      assert ListedInNm(31, 2); assert ListedInNm(31, 6); assert ListedInNm(31, 71);
    }
  }

  lemma MnRowsChecked32()
    ensures forall b | 32 <= b < 40 :: MnRowChecked(b)
  {
    assert MnRowChecked(32) by {
      assert ListedInNm(32, 4); assert ListedInNm(32, 16); assert ListedInNm(32, 54);
    }
    assert MnRowChecked(33) by {
      assert ListedInNm(33, 7); assert ListedInNm(33, 65); assert ListedInNm(33, 67);
    }
    assert MnRowChecked(34) by {
      assert ListedInNm(34, 8); assert ListedInNm(34, 30); assert ListedInNm(34, 42);
    }
    assert MnRowChecked(35) by {
      assert ListedInNm(35, 9); assert ListedInNm(35, 22); assert ListedInNm(35, 31);
    }
    assert MnRowChecked(36) by {
      assert ListedInNm(36, 10); assert ListedInNm(36, 18); assert ListedInNm(36, 76);
    }
    assert MnRowChecked(37) by {
      assert ListedInNm(37, 11); assert ListedInNm(37, 23); assert ListedInNm(37, 82);
    }
    assert MnRowChecked(38) by {
      assert ListedInNm(38, 12); assert ListedInNm(38, 28); assert ListedInNm(38, 61);
    }
    assert MnRowChecked(39) by {
      assert ListedInNm(39, 13); assert ListedInNm(39, 52); assert ListedInNm(39, 79);
    }
  }

  lemma MnRowsChecked40()
    ensures forall b | 40 <= b < 48 :: MnRowChecked(b)
  {
    assert MnRowChecked(40) by {
      assert ListedInNm(40, 14); assert ListedInNm(40, 50); assert ListedInNm(40, 51);
    }
    assert MnRowChecked(41) by {
      assert ListedInNm(41, 15); assert ListedInNm(41, 81); assert ListedInNm(41, 83);
    }
    assert MnRowChecked(42) by {
      assert ListedInNm(42, 17); assert ListedInNm(42, 29); assert ListedInNm(42, 60);
    }
    assert MnRowChecked(43) by {
      assert ListedInNm(43, 19); assert ListedInNm(43, 33); assert ListedInNm(43, 64);
    }
    assert MnRowChecked(44) by {
      assert ListedInNm(44, 20); assert ListedInNm(44, 26); assert ListedInNm(44, 73);
    }
    assert MnRowChecked(45) by {
      assert ListedInNm(45, 21); assert ListedInNm(45, 34); assert ListedInNm(45, 40);
    }
    assert MnRowChecked(46) by {
      assert ListedInNm(46, 24); assert ListedInNm(46, 27); assert ListedInNm(46, 77);
    }
    assert MnRowChecked(47) by {
      assert ListedInNm(47, 25); assert ListedInNm(47, 55); assert ListedInNm(47, 58);
    }
  }

  lemma MnRowsChecked48()
    ensures forall b | 48 <= b < 56 :: MnRowChecked(b)
  {
    assert MnRowChecked(48) by {
      assert ListedInNm(48, 35); assert ListedInNm(48, 53); assert ListedInNm(48, 66);
    }
    assert MnRowChecked(49) by {
      assert ListedInNm(49, 36); assert ListedInNm(49, 48); assert ListedInNm(49, 68);
    }
    assert MnRowChecked(50) by {
      assert ListedInNm(50, 37); assert ListedInNm(50, 46); assert ListedInNm(50, 75);
    }
    assert MnRowChecked(51) by {
      assert ListedInNm(51, 38); assert ListedInNm(51, 45); assert ListedInNm(51, 47);
    }
    assert MnRowChecked(52) by {
      assert ListedInNm(52, 39); assert ListedInNm(52, 57); assert ListedInNm(52, 69);
    }
    assert MnRowChecked(53) by {
      assert ListedInNm(53, 41); assert ListedInNm(53, 56); assert ListedInNm(53, 62);
    }
    assert MnRowChecked(54) by {
      assert ListedInNm(54, 20); assert ListedInNm(54, 49); assert ListedInNm(54, 53);
    }
    assert MnRowChecked(55) by {
      assert ListedInNm(55, 46); assert ListedInNm(55, 52); assert ListedInNm(55, 63);
    }
  }

  lemma MnRowsChecked56()
    ensures forall b | 56 <= b < 64 :: MnRowChecked(b)
  {
    assert MnRowChecked(56) by {
      assert ListedInNm(56, 45); assert ListedInNm(56, 70); assert ListedInNm(56, 75);
    }
    assert MnRowChecked(57) by {
      assert ListedInNm(57, 27); assert ListedInNm(57, 35); assert ListedInNm(57, 80);
    }
    assert MnRowChecked(58) by {
      assert ListedInNm(58, 1); assert ListedInNm(58, 15); assert ListedInNm(58, 30);
    }
    assert MnRowChecked(59) by {
      assert ListedInNm(59, 2); assert ListedInNm(59, 68); assert ListedInNm(59, 80);
    }
    assert MnRowChecked(60) by {
      assert ListedInNm(60, 3); assert ListedInNm(60, 36); assert ListedInNm(60, 51);
    }
    assert MnRowChecked(61) by {
      assert ListedInNm(61, 4); assert ListedInNm(61, 28); assert ListedInNm(61, 51);
    }
    assert MnRowChecked(62) by {
      assert ListedInNm(62, 5); assert ListedInNm(62, 31); assert ListedInNm(62, 56);
    }
    assert MnRowChecked(63) by {
      assert ListedInNm(63, 6); assert ListedInNm(63, 20); assert ListedInNm(63, 37);
    }
  }

  lemma MnRowsChecked64()
    ensures forall b | 64 <= b < 72 :: MnRowChecked(b)
  {
    assert MnRowChecked(64) by {
      assert ListedInNm(64, 7); assert ListedInNm(64, 40); assert ListedInNm(64, 82);
    }
    assert MnRowChecked(65) by {
      assert ListedInNm(65, 8); assert ListedInNm(65, 60); assert ListedInNm(65, 69);
    }
    assert MnRowChecked(66) by {
      assert ListedInNm(66, 9); assert ListedInNm(66, 10); assert ListedInNm(66, 49);
    }
    assert MnRowChecked(67) by {
      assert ListedInNm(67, 11); assert ListedInNm(67, 44); assert ListedInNm(67, 57);
    }
    assert MnRowChecked(68) by {
      assert ListedInNm(68, 12); assert ListedInNm(68, 39); assert ListedInNm(68, 59);
    }
    assert MnRowChecked(69) by {
      assert ListedInNm(69, 13); assert ListedInNm(69, 24); assert ListedInNm(69, 55);
    }
    assert MnRowChecked(70) by {
      assert ListedInNm(70, 14); assert ListedInNm(70, 21); assert ListedInNm(70, 65);
    }
    assert MnRowChecked(71) by {
      assert ListedInNm(71, 16); assert ListedInNm(71, 71); assert ListedInNm(71, 78);
    }
  }

  lemma MnRowsChecked72()
    ensures forall b | 72 <= b < 80 :: MnRowChecked(b)
  {
    assert MnRowChecked(72) by {
      assert ListedInNm(72, 17); assert ListedInNm(72, 30); assert ListedInNm(72, 76);
    }
    assert MnRowChecked(73) by {
      assert ListedInNm(73, 18); assert ListedInNm(73, 25); assert ListedInNm(73, 80);
    }
    assert MnRowChecked(74) by {
      assert ListedInNm(74, 19); assert ListedInNm(74, 61); assert ListedInNm(74, 83);
    }
    assert MnRowChecked(75) by {
      assert ListedInNm(75, 22); assert ListedInNm(75, 38); assert ListedInNm(75, 77);
    }
    assert MnRowChecked(76) by {
      assert ListedInNm(76, 23); assert ListedInNm(76, 41); assert ListedInNm(76, 50);
    }
    assert MnRowChecked(77) by {
      assert ListedInNm(77, 7); assert ListedInNm(77, 26); assert ListedInNm(77, 58);
    }
    assert MnRowChecked(78) by {
      assert ListedInNm(78, 29); assert ListedInNm(78, 32); assert ListedInNm(78, 81);
    }
    assert MnRowChecked(79) by {
      assert ListedInNm(79, 33); assert ListedInNm(79, 40); assert ListedInNm(79, 73);
    }
  }

  lemma MnRowsChecked80()
    ensures forall b | 80 <= b < 88 :: MnRowChecked(b)
  {
    assert MnRowChecked(80) by {
      assert ListedInNm(80, 18); assert ListedInNm(80, 34); assert ListedInNm(80, 48);
    }
    assert MnRowChecked(81) by {
      assert ListedInNm(81, 13); assert ListedInNm(81, 42); assert ListedInNm(81, 64);
    }
    assert MnRowChecked(82) by {
      assert ListedInNm(82, 5); assert ListedInNm(82, 26); assert ListedInNm(82, 43);
    }
    assert MnRowChecked(83) by {
      assert ListedInNm(83, 47); assert ListedInNm(83, 69); assert ListedInNm(83, 72);
    }
    assert MnRowChecked(84) by {
      assert ListedInNm(84, 54); assert ListedInNm(84, 55); assert ListedInNm(84, 70);
    }
    assert MnRowChecked(85) by {
      assert ListedInNm(85, 45); assert ListedInNm(85, 62); assert ListedInNm(85, 68);
    }
    assert MnRowChecked(86) by {
      assert ListedInNm(86, 10); assert ListedInNm(86, 63); assert ListedInNm(86, 67);
    }
    assert MnRowChecked(87) by {
      assert ListedInNm(87, 14); assert ListedInNm(87, 66); assert ListedInNm(87, 72);
    }
  }

  lemma MnRowsChecked88()
    ensures forall b | 88 <= b < 96 :: MnRowChecked(b)
  {
    assert MnRowChecked(88) by {
      assert ListedInNm(88, 22); assert ListedInNm(88, 60); assert ListedInNm(88, 74);
    }
    assert MnRowChecked(89) by {
      assert ListedInNm(89, 35); assert ListedInNm(89, 39); assert ListedInNm(89, 79);
    }
    assert MnRowChecked(90) by {
      assert ListedInNm(90, 1); assert ListedInNm(90, 46); assert ListedInNm(90, 64);
    }
    assert MnRowChecked(91) by {
      assert ListedInNm(91, 1); assert ListedInNm(91, 24); assert ListedInNm(91, 66);
    }
    assert MnRowChecked(92) by {
      assert ListedInNm(92, 2); assert ListedInNm(92, 5); assert ListedInNm(92, 70);
    }
    assert MnRowChecked(93) by {
      assert ListedInNm(93, 3); assert ListedInNm(93, 31); assert ListedInNm(93, 65);
    }
    assert MnRowChecked(94) by {
      assert ListedInNm(94, 4); assert ListedInNm(94, 49); assert ListedInNm(94, 58);
    }
    assert MnRowChecked(95) by {
      assert ListedInNm(95, 1); assert ListedInNm(95, 4); assert ListedInNm(95, 5);
    }
  }

  lemma MnRowsChecked96()
    ensures forall b | 96 <= b < 104 :: MnRowChecked(b)
  {
    assert MnRowChecked(96) by {
      assert ListedInNm(96, 6); assert ListedInNm(96, 60); assert ListedInNm(96, 67);
    }
    assert MnRowChecked(97) by {
      assert ListedInNm(97, 7); assert ListedInNm(97, 32); assert ListedInNm(97, 75);
    }
    assert MnRowChecked(98) by {
      assert ListedInNm(98, 8); assert ListedInNm(98, 48); assert ListedInNm(98, 82);
    }
    assert MnRowChecked(99) by {
      assert ListedInNm(99, 9); assert ListedInNm(99, 35); assert ListedInNm(99, 41);
    }
    assert MnRowChecked(100) by {
      assert ListedInNm(100, 10); assert ListedInNm(100, 39); assert ListedInNm(100, 62);
    }
    assert MnRowChecked(101) by {
      assert ListedInNm(101, 11); assert ListedInNm(101, 14); assert ListedInNm(101, 61);
    }
    assert MnRowChecked(102) by {
      assert ListedInNm(102, 12); assert ListedInNm(102, 71); assert ListedInNm(102, 74);
    }
    assert MnRowChecked(103) by {
      assert ListedInNm(103, 13); assert ListedInNm(103, 23); assert ListedInNm(103, 78);
    }
  }

  lemma MnRowsChecked104()
    ensures forall b | 104 <= b < 112 :: MnRowChecked(b)
  {
    assert MnRowChecked(104) by {
      assert ListedInNm(104, 11); assert ListedInNm(104, 35); assert ListedInNm(104, 55);
    }
    assert MnRowChecked(105) by {
      assert ListedInNm(105, 15); assert ListedInNm(105, 16); assert ListedInNm(105, 79);
    }
    assert MnRowChecked(106) by {
      assert ListedInNm(106, 7); assert ListedInNm(106, 9); assert ListedInNm(106, 16);
    }
    assert MnRowChecked(107) by {
      assert ListedInNm(107, 17); assert ListedInNm(107, 54); assert ListedInNm(107, 63);
    }
    assert MnRowChecked(108) by {
      assert ListedInNm(108, 18); assert ListedInNm(108, 50); assert ListedInNm(108, 57);
    }
    assert MnRowChecked(109) by {
      assert ListedInNm(109, 19); assert ListedInNm(109, 30); assert ListedInNm(109, 47);
    }
    assert MnRowChecked(110) by {
      assert ListedInNm(110, 20); assert ListedInNm(110, 64); assert ListedInNm(110, 80);
    }
    assert MnRowChecked(111) by {
      assert ListedInNm(111, 21); assert ListedInNm(111, 28); assert ListedInNm(111, 69);
    }
  }

  lemma MnRowsChecked112()
    ensures forall b | 112 <= b < 120 :: MnRowChecked(b)
  {
    assert MnRowChecked(112) by {
      assert ListedInNm(112, 22); assert ListedInNm(112, 25); assert ListedInNm(112, 43);
    }
    assert MnRowChecked(113) by {
      assert ListedInNm(113, 13); assert ListedInNm(113, 22); assert ListedInNm(113, 37);
    }
    assert MnRowChecked(114) by {
      assert ListedInNm(114, 2); assert ListedInNm(114, 47); assert ListedInNm(114, 51);
    }
    assert MnRowChecked(115) by {
      assert ListedInNm(115, 23); assert ListedInNm(115, 54); assert ListedInNm(115, 74);
    }
    assert MnRowChecked(116) by {
      assert ListedInNm(116, 26); assert ListedInNm(116, 34); assert ListedInNm(116, 72);
    }
    assert MnRowChecked(117) by {
      assert ListedInNm(117, 27); assert ListedInNm(117, 36); assert ListedInNm(117, 37);
    }
    assert MnRowChecked(118) by {
      assert ListedInNm(118, 21); assert ListedInNm(118, 36); assert ListedInNm(118, 63);
    }
    assert MnRowChecked(119) by {
      assert ListedInNm(119, 29); assert ListedInNm(119, 40); assert ListedInNm(119, 44);
    }
  }

  lemma MnRowsChecked120()
    ensures forall b | 120 <= b < 128 :: MnRowChecked(b)
  {
    assert MnRowChecked(120) by {
      assert ListedInNm(120, 19); assert ListedInNm(120, 26); assert ListedInNm(120, 57);
    }
    assert MnRowChecked(121) by {
      assert ListedInNm(121, 3); assert ListedInNm(121, 46); assert ListedInNm(121, 82);
    }
    assert MnRowChecked(122) by {
      assert ListedInNm(122, 14); assert ListedInNm(122, 15); assert ListedInNm(122, 58);
    }
    assert MnRowChecked(123) by {
      assert ListedInNm(123, 33); assert ListedInNm(123, 52); assert ListedInNm(123, 53);
    }
    assert MnRowChecked(124) by {
      assert ListedInNm(124, 30); assert ListedInNm(124, 43); assert ListedInNm(124, 52);
    }
    assert MnRowChecked(125) by {
      assert ListedInNm(125, 6); assert ListedInNm(125, 9); assert ListedInNm(125, 52);
    }
    assert MnRowChecked(126) by {
      assert ListedInNm(126, 27); assert ListedInNm(126, 33); assert ListedInNm(126, 65);
    }
    assert MnRowChecked(127) by {
      assert ListedInNm(127, 25); assert ListedInNm(127, 69); assert ListedInNm(127, 73);
    }
  }

  lemma MnRowsChecked128()
    ensures forall b | 128 <= b < 136 :: MnRowChecked(b)
  {
    assert MnRowChecked(128) by {
      assert ListedInNm(128, 38); assert ListedInNm(128, 55); assert ListedInNm(128, 83);
    }
    assert MnRowChecked(129) by {
      assert ListedInNm(129, 20); assert ListedInNm(129, 39); assert ListedInNm(129, 77);
    }
    assert MnRowChecked(130) by {
      assert ListedInNm(130, 18); assert ListedInNm(130, 29); assert ListedInNm(130, 56);
    }
    assert MnRowChecked(131) by {
      assert ListedInNm(131, 32); assert ListedInNm(131, 48); assert ListedInNm(131, 71);
    }
    assert MnRowChecked(132) by {
      assert ListedInNm(132, 42); assert ListedInNm(132, 51); assert ListedInNm(132, 59);
    }
    assert MnRowChecked(133) by {
      assert ListedInNm(133, 28); assert ListedInNm(133, 44); assert ListedInNm(133, 79);
    }
    assert MnRowChecked(134) by {
      assert ListedInNm(134, 34); assert ListedInNm(134, 60); assert ListedInNm(134, 62);
    }
    assert MnRowChecked(135) by {
      assert ListedInNm(135, 31); assert ListedInNm(135, 45); assert ListedInNm(135, 61);
    }
  }

  lemma MnRowsChecked136()
    ensures forall b | 136 <= b < 144 :: MnRowChecked(b)
  {
    assert MnRowChecked(136) by {
      assert ListedInNm(136, 46); assert ListedInNm(136, 68); assert ListedInNm(136, 77);
    }
    assert MnRowChecked(137) by {
      assert ListedInNm(137, 6); assert ListedInNm(137, 24); assert ListedInNm(137, 76);
    }
    assert MnRowChecked(138) by {
      assert ListedInNm(138, 8); assert ListedInNm(138, 10); assert ListedInNm(138, 78);
    }
    assert MnRowChecked(139) by {
      assert ListedInNm(139, 40); assert ListedInNm(139, 41); assert ListedInNm(139, 70);
    }
    assert MnRowChecked(140) by {
      assert ListedInNm(140, 17); assert ListedInNm(140, 50); assert ListedInNm(140, 53);
    }
    assert MnRowChecked(141) by {
      assert ListedInNm(141, 42); assert ListedInNm(141, 66); assert ListedInNm(141, 68);
    }
    assert MnRowChecked(142) by {
      assert ListedInNm(142, 4); assert ListedInNm(142, 22); assert ListedInNm(142, 72);
    }
    assert MnRowChecked(143) by {
      assert ListedInNm(143, 36); assert ListedInNm(143, 64); assert ListedInNm(143, 81);
    }
  }

  lemma MnRowsChecked144()
    ensures forall b | 144 <= b < 152 :: MnRowChecked(b)
  {
    assert MnRowChecked(144) by {
      assert ListedInNm(144, 13); assert ListedInNm(144, 29); assert ListedInNm(144, 47);
    }
    assert MnRowChecked(145) by {
      assert ListedInNm(145, 2); assert ListedInNm(145, 8); assert ListedInNm(145, 81);
    }
    assert MnRowChecked(146) by {
      assert ListedInNm(146, 56); assert ListedInNm(146, 67); assert ListedInNm(146, 73);
    }
    assert MnRowChecked(147) by {
      assert ListedInNm(147, 5); assert ListedInNm(147, 38); assert ListedInNm(147, 50);
    }
    assert MnRowChecked(148) by {
      assert ListedInNm(148, 12); assert ListedInNm(148, 38); assert ListedInNm(148, 64);
    }
    assert MnRowChecked(149) by {
      assert ListedInNm(149, 59); assert ListedInNm(149, 72); assert ListedInNm(149, 80);
    }
    assert MnRowChecked(150) by {
      assert ListedInNm(150, 3); assert ListedInNm(150, 26); assert ListedInNm(150, 79);
    }
    assert MnRowChecked(151) by {
      assert ListedInNm(151, 45); assert ListedInNm(151, 76); assert ListedInNm(151, 81);
    }
  }

  lemma MnRowsChecked152()
    ensures forall b | 152 <= b < 160 :: MnRowChecked(b)
  {
    assert MnRowChecked(152) by {
      assert ListedInNm(152, 1); assert ListedInNm(152, 65); assert ListedInNm(152, 74);
    }
    assert MnRowChecked(153) by {
      assert ListedInNm(153, 7); assert ListedInNm(153, 18); assert ListedInNm(153, 77);
    }
    assert MnRowChecked(154) by {
      assert ListedInNm(154, 11); assert ListedInNm(154, 56); assert ListedInNm(154, 59);
    }
    assert MnRowChecked(155) by {
      assert ListedInNm(155, 14); assert ListedInNm(155, 39); assert ListedInNm(155, 54);
    }
    assert MnRowChecked(156) by {
      assert ListedInNm(156, 16); assert ListedInNm(156, 37); assert ListedInNm(156, 66);
    }
    assert MnRowChecked(157) by {
      assert ListedInNm(157, 10); assert ListedInNm(157, 28); assert ListedInNm(157, 55);
    }
    assert MnRowChecked(158) by {
      assert ListedInNm(158, 15); assert ListedInNm(158, 60); assert ListedInNm(158, 70);
    }
    assert MnRowChecked(159) by {
      assert ListedInNm(159, 17); assert ListedInNm(159, 25); assert ListedInNm(159, 82);
    }
  }

  lemma MnRowsChecked160()
    ensures forall b | 160 <= b < 168 :: MnRowChecked(b)
  {
    assert MnRowChecked(160) by {
      assert ListedInNm(160, 20); assert ListedInNm(160, 30); assert ListedInNm(160, 31);
    }
    assert MnRowChecked(161) by {
      assert ListedInNm(161, 12); assert ListedInNm(161, 67); assert ListedInNm(161, 68);
    }
    assert MnRowChecked(162) by {
      assert ListedInNm(162, 23); assert ListedInNm(162, 75); assert ListedInNm(162, 80);
    }
    assert MnRowChecked(163) by {
      assert ListedInNm(163, 27); assert ListedInNm(163, 32); assert ListedInNm(163, 62);
    }
    assert MnRowChecked(164) by {
      assert ListedInNm(164, 24); assert ListedInNm(164, 69); assert ListedInNm(164, 75);
    }
    assert MnRowChecked(165) by {
      assert ListedInNm(165, 19); assert ListedInNm(165, 21); assert ListedInNm(165, 71);
    }
    assert MnRowChecked(166) by {
      assert ListedInNm(166, 34); assert ListedInNm(166, 53); assert ListedInNm(166, 61);
    }
    assert MnRowChecked(167) by {
      assert ListedInNm(167, 35); assert ListedInNm(167, 46); assert ListedInNm(167, 47);
    }
  }

  lemma MnRowsChecked168()
    ensures forall b | 168 <= b < 174 :: MnRowChecked(b)
  {
    assert MnRowChecked(168) by {
      assert ListedInNm(168, 33); assert ListedInNm(168, 59); assert ListedInNm(168, 76);
    }
    assert MnRowChecked(169) by {
      assert ListedInNm(169, 40); assert ListedInNm(169, 43); assert ListedInNm(169, 83);
    }
    assert MnRowChecked(170) by {
      assert ListedInNm(170, 41); assert ListedInNm(170, 42); assert ListedInNm(170, 63);
    }
    assert MnRowChecked(171) by {
      assert ListedInNm(171, 49); assert ListedInNm(171, 75); assert ListedInNm(171, 83);
    }
    assert MnRowChecked(172) by {
      assert ListedInNm(172, 20); assert ListedInNm(172, 44); assert ListedInNm(172, 48);
    }
    assert MnRowChecked(173) by {
      assert ListedInNm(173, 42); assert ListedInNm(173, 49); assert ListedInNm(173, 57);
    }
  }

  /** The tables of ft8/arrays.h pass the structural checker. */
  lemma TablesConsistent()
    ensures ConsistentTables(Nm(), Mn())
  {
    NmRowsChecked0();
    NmRowsChecked6();
    NmRowsChecked12();
    NmRowsChecked18();
    NmRowsChecked24();
    NmRowsChecked30();
    NmRowsChecked36();
    NmRowsChecked42();
    NmRowsChecked48();
    NmRowsChecked54();
    NmRowsChecked60();
    NmRowsChecked66();
    NmRowsChecked72();
    NmRowsChecked78();
    MnRowsChecked0();
    MnRowsChecked8();
    MnRowsChecked16();
    MnRowsChecked24();
    MnRowsChecked32();
    MnRowsChecked40();
    MnRowsChecked48();
    MnRowsChecked56();
    MnRowsChecked64();
    MnRowsChecked72();
    MnRowsChecked80();
    MnRowsChecked88();
    MnRowsChecked96();
    MnRowsChecked104();
    MnRowsChecked112();
    MnRowsChecked120();
    MnRowsChecked128();
    MnRowsChecked136();
    MnRowsChecked144();
    MnRowsChecked152();
    MnRowsChecked160();
    MnRowsChecked168();
    forall c | 0 <= c < M ensures CheckEntryOk(Nm(), Mn(), c) {
      assert NmRowChecked(c);
    }
    forall b | 0 <= b < N ensures BitEntryOk(Nm(), Mn(), b) {
      assert MnRowChecked(b);
    }
  }

  /** The FT8 code graph: the tables loaded 0-origin without sentinels.
      It is valid: 83 checks of degree 6 or 7, 174 bits of degree 3,
      every index in range, and Nm and Mn transposes of each other. */
  function Graph(): (g: ParityGraph)
    ensures ValidGraph(g)
  {
    TablesConsistent();
    LoadSound(Nm(), Mn());
    Load(Nm(), Mn())
  }

  /** Check c of the graph is row c of Nm, stripped; that row passes the
      row check, so its entries are the sentinel or bits in 1..N. */
  lemma GraphCheckRow(c: int)
    requires 0 <= c < M
    ensures CheckRowOk(NmRow(c))
    ensures Graph().checkBits[c] == Strip(NmRow(c).Entries())
  {
    TablesConsistent();
    assert CheckEntryOk(Nm(), Mn(), c);
  }
}
