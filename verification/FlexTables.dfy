/** The tables of lex.yy.c as flex packed them, in groups of sixteen entries, and the step they encode. */
module FlexTables {

  /** The rule a state accepts, 0 for none. */
  function YyAccept(i: int): int {
    if i < 32 then
      if i < 16 then YyAccept0(i) else YyAccept16(i)
    else
      if i < 48 then
        YyAccept32(i)
      else
        if i < 64 then YyAccept48(i) else YyAccept64(i)
  }

  function YyAccept0(i: int): int {
    match i
    case 0 => 0 case 1 => 1 case 2 => 1 case 3 => 3 case 4 => 3 case 5 => 2 case 6 => 2 case 7 => 19 case 8 => 17
    case 9 => 16 case 10 => 15 case 11 => 1 case 12 => 17 case 13 => 12 case 14 => 17 case _ => 14
  }

  function YyAccept16(i: int): int {
    match i
    case 16 => 8 case 17 => 9 case 18 => 17 case 19 => 13 case 20 => 3 case 21 => 17 case 22 => 17 case 23 => 17
    case 24 => 2 case 25 => 17 case 26 => 17 case 27 => 17 case 28 => 16 case 29 => 1 case 30 => 0 case _ => 0
  }

  function YyAccept32(i: int): int {
    match i
    case 32 => 0 case 33 => 0 case 34 => 0 case 35 => 11 case 36 => 0 case 37 => 0 case 38 => 7 case 39 => 5
    case 40 => 1 case 41 => 1 case 42 => 6 case 43 => 10 case 44 => 3 case 45 => 0 case 46 => 0 case _ => 0
  }

  function YyAccept48(i: int): int {
    match i
    case 48 => 0 case 49 => 0 case 50 => 0 case 51 => 0 case 52 => 3 case 53 => 3 case 54 => 2 case 55 => 0
    case 56 => 0 case 57 => 0 case 58 => 0 case 59 => 0 case 60 => 0 case 61 => 0 case 62 => 2 case _ => 2
  }

  function YyAccept64(i: int): int {
    match i
    case 64 => 0 case 65 => 0 case 66 => 0 case 67 => 0 case 68 => 4 case 69 => 0 case 70 => 0 case 71 => 0
    case 72 => 0 case 73 => 0 case 74 => 0 case 75 => 0 case 76 => 0 case _ => 0
  }

  /** The class of a character; the entries left out are 1. */
  function YyEc(i: int): int {
    match i
    case 0 => 0 case 9 => 2 case 10 => 3 case 32 => 2 case 33 => 4 case 34 => 5 case 35 => 4 case 36 => 4 case 37 => 4
    case 38 => 6 case 39 => 7 case 42 => 4 case 43 => 4 case 44 => 4 case 45 => 4 case 46 => 4 case 47 => 4
    case 48 => 8 case 49 => 8 case 50 => 8 case 51 => 8 case 52 => 8 case 53 => 8 case 54 => 8 case 55 => 8
    case 56 => 8 case 57 => 8 case 58 => 4 case 59 => 9 case 60 => 10 case 62 => 11 case 63 => 4 case 64 => 4
    case 65 => 12 case 66 => 12 case 67 => 12 case 68 => 12 case 69 => 12 case 70 => 12 case 71 => 12 case 72 => 12
    case 73 => 12 case 74 => 12 case 75 => 12 case 76 => 12 case 77 => 12 case 78 => 12 case 79 => 12 case 80 => 12
    case 81 => 12 case 82 => 12 case 83 => 12 case 84 => 12 case 85 => 12 case 86 => 12 case 87 => 12 case 88 => 12
    case 89 => 12 case 90 => 12 case 92 => 13 case 95 => 4 case 97 => 12 case 98 => 12 case 99 => 12 case 100 => 12
    case 101 => 12 case 102 => 12 case 103 => 12 case 104 => 12 case 105 => 12 case 106 => 12 case 107 => 12
    case 108 => 12 case 109 => 12 case 110 => 12 case 111 => 12 case 112 => 12 case 113 => 12 case 114 => 12
    case 115 => 12 case 116 => 12 case 117 => 12 case 118 => 12 case 119 => 12 case 120 => 12 case 121 => 12
    case 122 => 12 case 124 => 14 case _ => 1
  }

  /** The class a class is taken for in a template state. */
  function YyMeta(i: int): int {
    match i
    case 0 => 0 case 1 => 1 case 2 => 1 case 3 => 1 case 4 => 1 case 5 => 1 case 6 => 1 case 7 => 1 case 8 => 1
    case 9 => 1 case 10 => 1 case 11 => 1 case 12 => 1 case 13 => 1 case _ => 1
  }

  /** Where the row of a state starts in `YyNxt` and `YyChk`; 254 ends the matching loop. */
  function YyBase(i: int): int {
    if i < 32 then
      if i < 16 then YyBase0(i) else YyBase16(i)
    else
      if i < 48 then
        YyBase32(i)
      else
        if i < 64 then YyBase48(i) else YyBase64(i)
  }

  function YyBase0(i: int): int {
    match i
    case 0 => 0 case 1 => 0 case 2 => 0 case 3 => 11 case 4 => 0 case 5 => 21 case 6 => 0 case 7 => 31 case 8 => 254
    case 9 => 28 case 10 => 254 case 11 => 31 case 12 => 43 case 13 => 21 case 14 => 55 case _ => 254
  }

  function YyBase16(i: int): int {
    match i
    case 16 => 254 case 17 => 11 case 18 => 67 case 19 => 26 case 20 => 78 case 21 => 90 case 22 => 102 case 23 => 114
    case 24 => 125 case 25 => 137 case 26 => 149 case 27 => 161 case 28 => 19 case 29 => 0 case 30 => 0 case _ => 0
  }

  function YyBase32(i: int): int {
    match i
    case 32 => 0 case 33 => 0 case 34 => 174 case 35 => 254 case 36 => 0 case 37 => 187 case 38 => 254 case 39 => 14
    case 40 => 0 case 41 => 0 case 42 => 254 case 43 => 254 case 44 => 0 case 45 => 0 case 46 => 0 case _ => 0
  }

  function YyBase48(i: int): int {
    match i
    case 48 => 0 case 49 => 200 case 50 => 0 case 51 => 213 case 52 => 0 case 53 => 0 case 54 => 0 case 55 => 0
    case 56 => 0 case 57 => 0 case 58 => 0 case 59 => 226 case 60 => 0 case 61 => 239 case 62 => 0 case _ => 0
  }

  function YyBase64(i: int): int {
    match i
    case 64 => 0 case 65 => 0 case 66 => 0 case 67 => 0 case 68 => 254 case 69 => 0 case 70 => 0 case 71 => 0
    case 72 => 0 case 73 => 0 case 74 => 0 case 75 => 0 case 76 => 0 case _ => 254
  }

  /** The state whose row serves for what is not in the row of this state. */
  function YyDef(i: int): int {
    if i < 32 then
      if i < 16 then YyDef0(i) else YyDef16(i)
    else
      if i < 48 then
        YyDef32(i)
      else
        if i < 64 then YyDef48(i) else YyDef64(i)
  }

  function YyDef0(i: int): int {
    match i
    case 0 => 0 case 1 => 77 case 2 => 1 case 3 => 1 case 4 => 3 case 5 => 3 case 6 => 5 case 7 => 77 case 8 => 77
    case 9 => 77 case 10 => 77 case 11 => 77 case 12 => 77 case 13 => 77 case 14 => 77 case _ => 77
  }

  function YyDef16(i: int): int {
    match i
    case 16 => 77 case 17 => 77 case 18 => 77 case 19 => 77 case 20 => 77 case 21 => 77 case 22 => 77 case 23 => 77
    case 24 => 77 case 25 => 77 case 26 => 77 case 27 => 77 case 28 => 77 case 29 => 11 case 30 => 12 case _ => 14
  }

  function YyDef32(i: int): int {
    match i
    case 32 => 18 case 33 => 12 case 34 => 77 case 35 => 77 case 36 => 14 case 37 => 77 case 38 => 77 case 39 => 77
    case 40 => 11 case 41 => 11 case 42 => 77 case 43 => 77 case 44 => 20 case 45 => 21 case 46 => 22 case _ => 23
  }

  function YyDef48(i: int): int {
    match i
    case 48 => 21 case 49 => 77 case 50 => 22 case 51 => 77 case 52 => 20 case 53 => 20 case 54 => 24 case 55 => 25
    case 56 => 26 case 57 => 27 case 58 => 25 case 59 => 77 case 60 => 26 case 61 => 77 case 62 => 24 case _ => 24
  }

  function YyDef64(i: int): int {
    match i
    case 64 => 12 case 65 => 12 case 66 => 14 case 67 => 14 case 68 => 77 case 69 => 21 case 70 => 21 case 71 => 22
    case 72 => 22 case 73 => 25 case 74 => 25 case 75 => 26 case 76 => 26 case _ => 0
  }

  /** The rows of next states, laid over each other. */
  function YyNxt(i: int): int {
    if i < 128 then
      if i < 64 then
        if i < 32 then
          if i < 16 then YyNxt0(i) else YyNxt16(i)
        else
          if i < 48 then YyNxt32(i) else YyNxt48(i)
      else
        if i < 96 then
          if i < 80 then YyNxt64(i) else YyNxt80(i)
        else
          if i < 112 then YyNxt96(i) else YyNxt112(i)
    else
      if i < 192 then
        if i < 160 then
          if i < 144 then YyNxt128(i) else YyNxt144(i)
        else
          if i < 176 then YyNxt160(i) else YyNxt176(i)
      else
        if i < 224 then
          if i < 208 then YyNxt192(i) else YyNxt208(i)
        else
          if i < 240 then
            YyNxt224(i)
          else
            if i < 256 then YyNxt240(i) else YyNxt256(i)
  }

  function YyNxt0(i: int): int {
    match i
    case 0 => 0 case 1 => 8 case 2 => 9 case 3 => 10 case 4 => 11 case 5 => 12 case 6 => 13 case 7 => 14 case 8 => 11
    case 9 => 15 case 10 => 16 case 11 => 17 case 12 => 11 case 13 => 18 case 14 => 19 case _ => 20
  }

  function YyNxt16(i: int): int {
    match i
    case 16 => 21 case 17 => 38 case 18 => 22 case 19 => 20 case 20 => 68 case 21 => 28 case 22 => 39 case 23 => 20
    case 24 => 23 case 25 => 24 case 26 => 25 case 27 => 35 case 28 => 26 case 29 => 24 case 30 => 28 case _ => 77
  }

  function YyNxt32(i: int): int {
    match i
    case 32 => 42 case 33 => 24 case 34 => 27 case 35 => 29 case 36 => 30 case 37 => 77 case 38 => 31 case 39 => 29
    case 40 => 43 case 41 => 77 case 42 => 77 case 43 => 29 case 44 => 32 case 45 => 33 case 46 => 33 case _ => 33
  }

  function YyNxt48(i: int): int {
    match i
    case 48 => 29 case 49 => 77 case 50 => 33 case 51 => 33 case 52 => 77 case 53 => 33 case 54 => 33 case 55 => 33
    case 56 => 34 case 57 => 36 case 58 => 36 case 59 => 36 case 60 => 36 case 61 => 77 case 62 => 29 case _ => 36
  }

  function YyNxt64(i: int): int {
    match i
    case 64 => 77 case 65 => 36 case 66 => 36 case 67 => 36 case 68 => 37 case 69 => 40 case 70 => 40 case 71 => 40
    case 72 => 40 case 73 => 41 case 74 => 40 case 75 => 40 case 76 => 40 case 77 => 40 case 78 => 40 case _ => 40
  }

  function YyNxt80(i: int): int {
    match i
    case 80 => 40 case 81 => 40 case 82 => 44 case 83 => 45 case 84 => 77 case 85 => 46 case 86 => 44 case 87 => 77
    case 88 => 77 case 89 => 77 case 90 => 44 case 91 => 47 case 92 => 48 case 93 => 48 case 94 => 48 case _ => 44
  }

  function YyNxt96(i: int): int {
    match i
    case 96 => 77 case 97 => 48 case 98 => 48 case 99 => 77 case 100 => 48 case 101 => 48 case 102 => 48
    case 103 => 49 case 104 => 50 case 105 => 50 case 106 => 50 case 107 => 50 case 108 => 77 case 109 => 44
    case 110 => 50 case _ => 77
  }

  function YyNxt112(i: int): int {
    match i
    case 112 => 50 case 113 => 50 case 114 => 50 case 115 => 51 case 116 => 52 case 117 => 52 case 118 => 52
    case 119 => 52 case 120 => 53 case 121 => 52 case 122 => 52 case 123 => 52 case 124 => 52 case 125 => 52
    case 126 => 52 case _ => 52
  }

  function YyNxt128(i: int): int {
    match i
    case 128 => 52 case 129 => 54 case 130 => 55 case 131 => 77 case 132 => 56 case 133 => 54 case 134 => 77
    case 135 => 77 case 136 => 77 case 137 => 54 case 138 => 57 case 139 => 58 case 140 => 58 case 141 => 58
    case 142 => 54 case _ => 77
  }

  function YyNxt144(i: int): int {
    match i
    case 144 => 58 case 145 => 58 case 146 => 77 case 147 => 58 case 148 => 58 case 149 => 58 case 150 => 59
    case 151 => 60 case 152 => 60 case 153 => 60 case 154 => 60 case 155 => 77 case 156 => 54 case 157 => 60
    case 158 => 77 case _ => 60
  }

  function YyNxt160(i: int): int {
    match i
    case 160 => 60 case 161 => 60 case 162 => 61 case 163 => 62 case 164 => 62 case 165 => 62 case 166 => 62
    case 167 => 63 case 168 => 62 case 169 => 62 case 170 => 62 case 171 => 62 case 172 => 62 case 173 => 62
    case 174 => 62 case _ => 62
  }

  function YyNxt176(i: int): int {
    match i
    case 176 => 64 case 177 => 64 case 178 => 64 case 179 => 64 case 180 => 65 case 181 => 64 case 182 => 64
    case 183 => 64 case 184 => 64 case 185 => 64 case 186 => 64 case 187 => 64 case 188 => 64 case 189 => 66
    case 190 => 66 case _ => 66
  }

  function YyNxt192(i: int): int {
    match i
    case 192 => 66 case 193 => 67 case 194 => 66 case 195 => 66 case 196 => 66 case 197 => 66 case 198 => 66
    case 199 => 66 case 200 => 66 case 201 => 66 case 202 => 69 case 203 => 69 case 204 => 69 case 205 => 69
    case 206 => 70 case _ => 69
  }

  function YyNxt208(i: int): int {
    match i
    case 208 => 69 case 209 => 69 case 210 => 69 case 211 => 69 case 212 => 69 case 213 => 69 case 214 => 69
    case 215 => 71 case 216 => 71 case 217 => 71 case 218 => 71 case 219 => 72 case 220 => 71 case 221 => 71
    case 222 => 71 case _ => 71
  }

  function YyNxt224(i: int): int {
    match i
    case 224 => 71 case 225 => 71 case 226 => 71 case 227 => 71 case 228 => 73 case 229 => 73 case 230 => 73
    case 231 => 73 case 232 => 74 case 233 => 73 case 234 => 73 case 235 => 73 case 236 => 73 case 237 => 73
    case 238 => 73 case _ => 73
  }

  function YyNxt240(i: int): int {
    match i
    case 240 => 73 case 241 => 75 case 242 => 75 case 243 => 75 case 244 => 75 case 245 => 76 case 246 => 75
    case 247 => 75 case 248 => 75 case 249 => 75 case 250 => 75 case 251 => 75 case 252 => 75 case 253 => 75
    case 254 => 7 case _ => 77
  }

  function YyNxt256(i: int): int {
    match i
    case 256 => 77 case 257 => 77 case 258 => 77 case 259 => 77 case 260 => 77 case 261 => 77 case 262 => 77
    case 263 => 77 case 264 => 77 case 265 => 77 case 266 => 77 case 267 => 77 case _ => 77
  }

  /** Which state an entry of `YyNxt` belongs to. */
  function YyChk(i: int): int {
    if i < 128 then
      if i < 64 then
        if i < 32 then
          if i < 16 then YyChk0(i) else YyChk16(i)
        else
          if i < 48 then YyChk32(i) else YyChk48(i)
      else
        if i < 96 then
          if i < 80 then YyChk64(i) else YyChk80(i)
        else
          if i < 112 then YyChk96(i) else YyChk112(i)
    else
      if i < 192 then
        if i < 160 then
          if i < 144 then YyChk128(i) else YyChk144(i)
        else
          if i < 176 then YyChk160(i) else YyChk176(i)
      else
        if i < 224 then
          if i < 208 then YyChk192(i) else YyChk208(i)
        else
          if i < 240 then
            YyChk224(i)
          else
            if i < 256 then YyChk240(i) else YyChk256(i)
  }

  function YyChk0(i: int): int {
    match i
    case 0 => 0 case 1 => 1 case 2 => 1 case 3 => 1 case 4 => 1 case 5 => 1 case 6 => 1 case 7 => 1 case 8 => 1
    case 9 => 1 case 10 => 1 case 11 => 1 case 12 => 1 case 13 => 1 case 14 => 1 case _ => 3
  }

  function YyChk16(i: int): int {
    match i
    case 16 => 3 case 17 => 17 case 18 => 3 case 19 => 3 case 20 => 39 case 21 => 28 case 22 => 17 case 23 => 3
    case 24 => 3 case 25 => 5 case 26 => 5 case 27 => 13 case 28 => 5 case 29 => 5 case 30 => 9 case _ => 7
  }

  function YyChk32(i: int): int {
    match i
    case 32 => 19 case 33 => 5 case 34 => 5 case 35 => 11 case 36 => 11 case 37 => 0 case 38 => 11 case 39 => 11
    case 40 => 19 case 41 => 0 case 42 => 0 case 43 => 11 case 44 => 11 case 45 => 12 case 46 => 12 case _ => 12
  }

  function YyChk48(i: int): int {
    match i
    case 48 => 12 case 49 => 0 case 50 => 12 case 51 => 12 case 52 => 0 case 53 => 12 case 54 => 12 case 55 => 12
    case 56 => 12 case 57 => 14 case 58 => 14 case 59 => 14 case 60 => 14 case 61 => 0 case 62 => 14 case _ => 14
  }

  function YyChk64(i: int): int {
    match i
    case 64 => 0 case 65 => 14 case 66 => 14 case 67 => 14 case 68 => 14 case 69 => 18 case 70 => 18 case 71 => 18
    case 72 => 18 case 73 => 18 case 74 => 18 case 75 => 18 case 76 => 18 case 77 => 18 case 78 => 18 case _ => 18
  }

  function YyChk80(i: int): int {
    match i
    case 80 => 18 case 81 => 18 case 82 => 20 case 83 => 20 case 84 => 0 case 85 => 20 case 86 => 20 case 87 => 0
    case 88 => 0 case 89 => 0 case 90 => 20 case 91 => 20 case 92 => 21 case 93 => 21 case 94 => 21 case _ => 21
  }

  function YyChk96(i: int): int {
    match i
    case 96 => 0 case 97 => 21 case 98 => 21 case 99 => 0 case 100 => 21 case 101 => 21 case 102 => 21 case 103 => 21
    case 104 => 22 case 105 => 22 case 106 => 22 case 107 => 22 case 108 => 0 case 109 => 22 case 110 => 22
    case _ => 0
  }

  function YyChk112(i: int): int {
    match i
    case 112 => 22 case 113 => 22 case 114 => 22 case 115 => 22 case 116 => 23 case 117 => 23 case 118 => 23
    case 119 => 23 case 120 => 23 case 121 => 23 case 122 => 23 case 123 => 23 case 124 => 23 case 125 => 23
    case 126 => 23 case _ => 23
  }

  function YyChk128(i: int): int {
    match i
    case 128 => 23 case 129 => 24 case 130 => 24 case 131 => 0 case 132 => 24 case 133 => 24 case 134 => 0
    case 135 => 0 case 136 => 0 case 137 => 24 case 138 => 24 case 139 => 25 case 140 => 25 case 141 => 25
    case 142 => 25 case _ => 0
  }

  function YyChk144(i: int): int {
    match i
    case 144 => 25 case 145 => 25 case 146 => 0 case 147 => 25 case 148 => 25 case 149 => 25 case 150 => 25
    case 151 => 26 case 152 => 26 case 153 => 26 case 154 => 26 case 155 => 0 case 156 => 26 case 157 => 26
    case 158 => 0 case _ => 26
  }

  function YyChk160(i: int): int {
    match i
    case 160 => 26 case 161 => 26 case 162 => 26 case 163 => 27 case 164 => 27 case 165 => 27 case 166 => 27
    case 167 => 27 case 168 => 27 case 169 => 27 case 170 => 27 case 171 => 27 case 172 => 27 case 173 => 27
    case 174 => 27 case _ => 27
  }

  function YyChk176(i: int): int {
    match i
    case 176 => 34 case 177 => 34 case 178 => 34 case 179 => 34 case 180 => 34 case 181 => 34 case 182 => 34
    case 183 => 34 case 184 => 34 case 185 => 34 case 186 => 34 case 187 => 34 case 188 => 34 case 189 => 37
    case 190 => 37 case _ => 37
  }

  function YyChk192(i: int): int {
    match i
    case 192 => 37 case 193 => 37 case 194 => 37 case 195 => 37 case 196 => 37 case 197 => 37 case 198 => 37
    case 199 => 37 case 200 => 37 case 201 => 37 case 202 => 49 case 203 => 49 case 204 => 49 case 205 => 49
    case 206 => 49 case _ => 49
  }

  function YyChk208(i: int): int {
    match i
    case 208 => 49 case 209 => 49 case 210 => 49 case 211 => 49 case 212 => 49 case 213 => 49 case 214 => 49
    case 215 => 51 case 216 => 51 case 217 => 51 case 218 => 51 case 219 => 51 case 220 => 51 case 221 => 51
    case 222 => 51 case _ => 51
  }

  function YyChk224(i: int): int {
    match i
    case 224 => 51 case 225 => 51 case 226 => 51 case 227 => 51 case 228 => 59 case 229 => 59 case 230 => 59
    case 231 => 59 case 232 => 59 case 233 => 59 case 234 => 59 case 235 => 59 case 236 => 59 case 237 => 59
    case 238 => 59 case _ => 59
  }

  function YyChk240(i: int): int {
    match i
    case 240 => 59 case 241 => 61 case 242 => 61 case 243 => 61 case 244 => 61 case 245 => 61 case 246 => 61
    case 247 => 61 case 248 => 61 case 249 => 61 case 250 => 61 case 251 => 61 case 252 => 61 case 253 => 61
    case 254 => 77 case _ => 77
  }

  function YyChk256(i: int): int {
    match i
    case 256 => 77 case 257 => 77 case 258 => 77 case 259 => 77 case 260 => 77 case 261 => 77 case 262 => 77
    case 263 => 77 case 264 => 77 case 265 => 77 case 266 => 77 case 267 => 77 case _ => 77
  }

  const JAMBASE := 254
  const LAST_STATE := 77

  predicate IsState(s: int) { 1 <= s <= LAST_STATE }

  predicate IsClass(k: int) { 0 <= k < 15 }

  /** The entry of row `s` for class `k` is of this row. */
  predicate Owns(s: int, k: int) { YyChk(YyBase(s) + k) == s }

  /** How often the default may still be taken. */
  function Rank(s: int): nat {
    if s == LAST_STATE then 0
    else if YyDef(s) == LAST_STATE then 1
    else if s == 4 || s == 5 then 3
    else if s == 6 then 4
    else 2
  }

  lemma LastOwnsAll(k: int)
    requires IsClass(k)
    ensures Owns(LAST_STATE, k)
  {
    hide YyNxt, YyDef;
  }

  lemma DefaultIsLower(s: int)
    requires 1 <= s < LAST_STATE
    ensures IsState(YyDef(s)) && Rank(YyDef(s)) < Rank(s)
  {
  }

  /** Defaults lead to the last state, which owns all its entries. */
  lemma DefaultsEnd(s: int, k: int)
    requires IsState(s) && IsClass(k) && !Owns(s, k)
    ensures IsState(YyDef(s)) && Rank(YyDef(s)) < Rank(s)
  {
    hide YyDef, YyBase, YyChk, Rank, Owns;
    LastOwnsAll(k);
    DefaultIsLower(s);
  }

  /** The state whose row has the entry of `s` for class `k`: itself, or the first along the defaults. */
  function Row(s: int, k: int): int
    requires IsState(s) && IsClass(k)
    decreases Rank(s)
  {
    if Owns(s, k) then s
    else
      DefaultsEnd(s, k);
      Row(YyDef(s), k)
  }

  /** The next state that the tables encode. */
  function Packed(s: int, k: int): int
    requires IsState(s) && IsClass(k)
  {
    YyNxt(YyBase(Row(s, k)) + k)
  }
}
