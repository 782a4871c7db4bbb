/** The space-vector PWM waveform engine of the Timer Z0 interrupt
    (wilo.c:1176-1214): the three constant phase tables, the frequency ramp
    performed once every 32 carrier periods, the volts-per-hertz modulation
    ratio and the compare value written for each phase. */
module Svpwm {
  import opened Word

  /** Carrier period in timer counts (`TZ0.GRA`). */
  const PWM_MAX := 2000
  /** Largest modulation ratio the interrupt lets through. */
  const MAX_RATIO := 251
  /** Steps per electrical revolution of the tables. */
  const STEPS := 256
  /** Carrier periods per 4 ms tick (`(z0cnt & 0x1f) == 0`). */
  const TICK_DIVISOR := 32

  // The three tables hold signed 7-bit amplitudes with min-max (third-harmonic)
  // injection, generated offline; each is a lookup from step 0..255.

  /** `svpwmU` (wilo.c:43-60): phase U. The `case _` arm is never taken. */
  function SvpwmU(i: int): (v: int)
    requires 0 <= i < STEPS
    ensures -127 <= v <= 127
  {
    match i
    case 0 => 5 case 1 => 11 case 2 => 16 case 3 => 22 case 4 => 27 case 5 => 32 case 6 => 38 case 7 => 43
    case 8 => 48 case 9 => 53 case 10 => 59 case 11 => 64 case 12 => 69 case 13 => 74 case 14 => 79 case 15 => 84
    case 16 => 89 case 17 => 94 case 18 => 99 case 19 => 104 case 20 => 108 case 21 => 111 case 22 => 112 case 23 => 114
    case 24 => 115 case 25 => 117 case 26 => 118 case 27 => 119 case 28 => 120 case 29 => 121 case 30 => 122 case 31 => 123
    case 32 => 123 case 33 => 124 case 34 => 125 case 35 => 125 case 36 => 126 case 37 => 126 case 38 => 126 case 39 => 127
    case 40 => 127 case 41 => 127 case 42 => 127 case 43 => 127 case 44 => 127 case 45 => 127 case 46 => 126 case 47 => 126
    case 48 => 125 case 49 => 125 case 50 => 124 case 51 => 124 case 52 => 123 case 53 => 122 case 54 => 121 case 55 => 120
    case 56 => 119 case 57 => 118 case 58 => 117 case 59 => 116 case 60 => 114 case 61 => 113 case 62 => 112 case 63 => 110
    case 64 => 112 case 65 => 113 case 66 => 114 case 67 => 116 case 68 => 117 case 69 => 118 case 70 => 119 case 71 => 120
    case 72 => 121 case 73 => 122 case 74 => 123 case 75 => 124 case 76 => 124 case 77 => 125 case 78 => 125 case 79 => 126
    case 80 => 126 case 81 => 127 case 82 => 127 case 83 => 127 case 84 => 127 case 85 => 127 case 86 => 127 case 87 => 127
    case 88 => 126 case 89 => 126 case 90 => 126 case 91 => 125 case 92 => 125 case 93 => 124 case 94 => 123 case 95 => 123
    case 96 => 122 case 97 => 121 case 98 => 120 case 99 => 119 case 100 => 118 case 101 => 117 case 102 => 115 case 103 => 114
    case 104 => 112 case 105 => 111 case 106 => 108 case 107 => 104 case 108 => 99 case 109 => 94 case 110 => 89 case 111 => 84
    case 112 => 79 case 113 => 74 case 114 => 69 case 115 => 64 case 116 => 59 case 117 => 53 case 118 => 48 case 119 => 43
    case 120 => 38 case 121 => 32 case 122 => 27 case 123 => 22 case 124 => 16 case 125 => 11 case 126 => 5 case 127 => 0
    case 128 => -5 case 129 => -11 case 130 => -16 case 131 => -22 case 132 => -27 case 133 => -32 case 134 => -38 case 135 => -43
    case 136 => -48 case 137 => -53 case 138 => -59 case 139 => -64 case 140 => -69 case 141 => -74 case 142 => -79 case 143 => -84
    case 144 => -89 case 145 => -94 case 146 => -99 case 147 => -104 case 148 => -108 case 149 => -111 case 150 => -112 case 151 => -114
    case 152 => -115 case 153 => -117 case 154 => -118 case 155 => -119 case 156 => -120 case 157 => -121 case 158 => -122 case 159 => -123
    case 160 => -123 case 161 => -124 case 162 => -125 case 163 => -125 case 164 => -126 case 165 => -126 case 166 => -126 case 167 => -127
    case 168 => -127 case 169 => -127 case 170 => -127 case 171 => -127 case 172 => -127 case 173 => -127 case 174 => -126 case 175 => -126
    case 176 => -125 case 177 => -125 case 178 => -124 case 179 => -124 case 180 => -123 case 181 => -122 case 182 => -121 case 183 => -120
    case 184 => -119 case 185 => -118 case 186 => -117 case 187 => -116 case 188 => -114 case 189 => -113 case 190 => -112 case 191 => -110
    case 192 => -112 case 193 => -113 case 194 => -114 case 195 => -116 case 196 => -117 case 197 => -118 case 198 => -119 case 199 => -120
    case 200 => -121 case 201 => -122 case 202 => -123 case 203 => -124 case 204 => -124 case 205 => -125 case 206 => -125 case 207 => -126
    case 208 => -126 case 209 => -127 case 210 => -127 case 211 => -127 case 212 => -127 case 213 => -127 case 214 => -127 case 215 => -127
    case 216 => -126 case 217 => -126 case 218 => -126 case 219 => -125 case 220 => -125 case 221 => -124 case 222 => -123 case 223 => -123
    case 224 => -122 case 225 => -121 case 226 => -120 case 227 => -119 case 228 => -118 case 229 => -117 case 230 => -115 case 231 => -114
    case 232 => -112 case 233 => -111 case 234 => -108 case 235 => -104 case 236 => -99 case 237 => -94 case 238 => -89 case 239 => -84
    case 240 => -79 case 241 => -74 case 242 => -69 case 243 => -64 case 244 => -59 case 245 => -53 case 246 => -48 case 247 => -43
    case 248 => -38 case 249 => -32 case 250 => -27 case 251 => -22 case 252 => -16 case 253 => -11 case 254 => -5 case 255 => 0
    case _ => 0
  }

  /** `svpwmV` (wilo.c:62-79): phase V, 120 degrees ahead of U. The `case _` arm is never taken. */
  function SvpwmV(i: int): (v: int)
    requires 0 <= i < STEPS
    ensures -127 <= v <= 127
  {
    match i
    case 0 => 127 case 1 => 127 case 2 => 127 case 3 => 126 case 4 => 126 case 5 => 126 case 6 => 125 case 7 => 125
    case 8 => 124 case 9 => 123 case 10 => 122 case 11 => 122 case 12 => 121 case 13 => 120 case 14 => 118 case 15 => 117
    case 16 => 116 case 17 => 115 case 18 => 113 case 19 => 112 case 20 => 111 case 21 => 107 case 22 => 102 case 23 => 97
    case 24 => 92 case 25 => 87 case 26 => 83 case 27 => 77 case 28 => 72 case 29 => 67 case 30 => 62 case 31 => 57
    case 32 => 52 case 33 => 46 case 34 => 41 case 35 => 36 case 36 => 30 case 37 => 25 case 38 => 20 case 39 => 14
    case 40 => 9 case 41 => 4 case 42 => -2 case 43 => -7 case 44 => -13 case 45 => -18 case 46 => -23 case 47 => -29
    case 48 => -34 case 49 => -39 case 50 => -45 case 51 => -50 case 52 => -55 case 53 => -60 case 54 => -66 case 55 => -71
    case 56 => -76 case 57 => -81 case 58 => -86 case 59 => -91 case 60 => -96 case 61 => -101 case 62 => -105 case 63 => -110
    case 64 => -112 case 65 => -113 case 66 => -114 case 67 => -116 case 68 => -117 case 69 => -118 case 70 => -119 case 71 => -120
    case 72 => -121 case 73 => -122 case 74 => -123 case 75 => -124 case 76 => -124 case 77 => -125 case 78 => -125 case 79 => -126
    case 80 => -126 case 81 => -127 case 82 => -127 case 83 => -127 case 84 => -127 case 85 => -127 case 86 => -127 case 87 => -127
    case 88 => -126 case 89 => -126 case 90 => -126 case 91 => -125 case 92 => -125 case 93 => -124 case 94 => -123 case 95 => -123
    case 96 => -122 case 97 => -121 case 98 => -120 case 99 => -119 case 100 => -118 case 101 => -117 case 102 => -115 case 103 => -114
    case 104 => -112 case 105 => -111 case 106 => -111 case 107 => -112 case 108 => -113 case 109 => -115 case 110 => -116 case 111 => -117
    case 112 => -118 case 113 => -120 case 114 => -121 case 115 => -122 case 116 => -122 case 117 => -123 case 118 => -124 case 119 => -125
    case 120 => -125 case 121 => -126 case 122 => -126 case 123 => -126 case 124 => -127 case 125 => -127 case 126 => -127 case 127 => -127
    case 128 => -127 case 129 => -127 case 130 => -127 case 131 => -126 case 132 => -126 case 133 => -126 case 134 => -125 case 135 => -125
    case 136 => -124 case 137 => -123 case 138 => -122 case 139 => -122 case 140 => -121 case 141 => -120 case 142 => -118 case 143 => -117
    case 144 => -116 case 145 => -115 case 146 => -113 case 147 => -112 case 148 => -111 case 149 => -107 case 150 => -102 case 151 => -97
    case 152 => -92 case 153 => -87 case 154 => -83 case 155 => -77 case 156 => -72 case 157 => -67 case 158 => -62 case 159 => -57
    case 160 => -52 case 161 => -46 case 162 => -41 case 163 => -36 case 164 => -30 case 165 => -25 case 166 => -20 case 167 => -14
    case 168 => -9 case 169 => -4 case 170 => 2 case 171 => 7 case 172 => 13 case 173 => 18 case 174 => 23 case 175 => 29
    case 176 => 34 case 177 => 39 case 178 => 45 case 179 => 50 case 180 => 55 case 181 => 60 case 182 => 66 case 183 => 71
    case 184 => 76 case 185 => 81 case 186 => 86 case 187 => 91 case 188 => 96 case 189 => 101 case 190 => 105 case 191 => 110
    case 192 => 112 case 193 => 113 case 194 => 114 case 195 => 116 case 196 => 117 case 197 => 118 case 198 => 119 case 199 => 120
    case 200 => 121 case 201 => 122 case 202 => 123 case 203 => 124 case 204 => 124 case 205 => 125 case 206 => 125 case 207 => 126
    case 208 => 126 case 209 => 127 case 210 => 127 case 211 => 127 case 212 => 127 case 213 => 127 case 214 => 127 case 215 => 127
    case 216 => 126 case 217 => 126 case 218 => 126 case 219 => 125 case 220 => 125 case 221 => 124 case 222 => 123 case 223 => 123
    case 224 => 122 case 225 => 121 case 226 => 120 case 227 => 119 case 228 => 118 case 229 => 117 case 230 => 115 case 231 => 114
    case 232 => 112 case 233 => 111 case 234 => 111 case 235 => 112 case 236 => 113 case 237 => 115 case 238 => 116 case 239 => 117
    case 240 => 118 case 241 => 120 case 242 => 121 case 243 => 122 case 244 => 122 case 245 => 123 case 246 => 124 case 247 => 125
    case 248 => 125 case 249 => 126 case 250 => 126 case 251 => 126 case 252 => 127 case 253 => 127 case 254 => 127 case 255 => 127
    case _ => 0
  }

  /** `svpwmW` (wilo.c:81-98): phase W, 240 degrees ahead of U. The `case _` arm is never taken. */
  function SvpwmW(i: int): (v: int)
    requires 0 <= i < STEPS
    ensures -127 <= v <= 127
  {
    match i
    case 0 => -127 case 1 => -127 case 2 => -127 case 3 => -126 case 4 => -126 case 5 => -126 case 6 => -125 case 7 => -125
    case 8 => -124 case 9 => -123 case 10 => -122 case 11 => -122 case 12 => -121 case 13 => -120 case 14 => -118 case 15 => -117
    case 16 => -116 case 17 => -115 case 18 => -113 case 19 => -112 case 20 => -111 case 21 => -111 case 22 => -112 case 23 => -114
    case 24 => -115 case 25 => -117 case 26 => -118 case 27 => -119 case 28 => -120 case 29 => -121 case 30 => -122 case 31 => -123
    case 32 => -123 case 33 => -124 case 34 => -125 case 35 => -125 case 36 => -126 case 37 => -126 case 38 => -126 case 39 => -127
    case 40 => -127 case 41 => -127 case 42 => -127 case 43 => -127 case 44 => -127 case 45 => -127 case 46 => -126 case 47 => -126
    case 48 => -125 case 49 => -125 case 50 => -124 case 51 => -124 case 52 => -123 case 53 => -122 case 54 => -121 case 55 => -120
    case 56 => -119 case 57 => -118 case 58 => -117 case 59 => -116 case 60 => -114 case 61 => -113 case 62 => -112 case 63 => -110
    case 64 => -105 case 65 => -101 case 66 => -96 case 67 => -91 case 68 => -86 case 69 => -81 case 70 => -76 case 71 => -71
    case 72 => -66 case 73 => -60 case 74 => -55 case 75 => -50 case 76 => -45 case 77 => -39 case 78 => -34 case 79 => -29
    case 80 => -23 case 81 => -18 case 82 => -13 case 83 => -7 case 84 => -2 case 85 => 4 case 86 => 9 case 87 => 14
    case 88 => 20 case 89 => 25 case 90 => 30 case 91 => 36 case 92 => 41 case 93 => 46 case 94 => 52 case 95 => 57
    case 96 => 62 case 97 => 67 case 98 => 72 case 99 => 77 case 100 => 83 case 101 => 87 case 102 => 92 case 103 => 97
    case 104 => 102 case 105 => 107 case 106 => 111 case 107 => 112 case 108 => 113 case 109 => 115 case 110 => 116 case 111 => 117
    case 112 => 118 case 113 => 120 case 114 => 121 case 115 => 122 case 116 => 122 case 117 => 123 case 118 => 124 case 119 => 125
    case 120 => 125 case 121 => 126 case 122 => 126 case 123 => 126 case 124 => 127 case 125 => 127 case 126 => 127 case 127 => 127
    case 128 => 127 case 129 => 127 case 130 => 127 case 131 => 126 case 132 => 126 case 133 => 126 case 134 => 125 case 135 => 125
    case 136 => 124 case 137 => 123 case 138 => 122 case 139 => 122 case 140 => 121 case 141 => 120 case 142 => 118 case 143 => 117
    case 144 => 116 case 145 => 115 case 146 => 113 case 147 => 112 case 148 => 111 case 149 => 111 case 150 => 112 case 151 => 114
    case 152 => 115 case 153 => 117 case 154 => 118 case 155 => 119 case 156 => 120 case 157 => 121 case 158 => 122 case 159 => 123
    case 160 => 123 case 161 => 124 case 162 => 125 case 163 => 125 case 164 => 126 case 165 => 126 case 166 => 126 case 167 => 127
    case 168 => 127 case 169 => 127 case 170 => 127 case 171 => 127 case 172 => 127 case 173 => 127 case 174 => 126 case 175 => 126
    case 176 => 125 case 177 => 125 case 178 => 124 case 179 => 124 case 180 => 123 case 181 => 122 case 182 => 121 case 183 => 120
    case 184 => 119 case 185 => 118 case 186 => 117 case 187 => 116 case 188 => 114 case 189 => 113 case 190 => 112 case 191 => 110
    case 192 => 105 case 193 => 101 case 194 => 96 case 195 => 91 case 196 => 86 case 197 => 81 case 198 => 76 case 199 => 71
    case 200 => 66 case 201 => 60 case 202 => 55 case 203 => 50 case 204 => 45 case 205 => 39 case 206 => 34 case 207 => 29
    case 208 => 23 case 209 => 18 case 210 => 13 case 211 => 7 case 212 => 2 case 213 => -4 case 214 => -9 case 215 => -14
    case 216 => -20 case 217 => -25 case 218 => -30 case 219 => -36 case 220 => -41 case 221 => -46 case 222 => -52 case 223 => -57
    case 224 => -62 case 225 => -67 case 226 => -72 case 227 => -77 case 228 => -83 case 229 => -87 case 230 => -92 case 231 => -97
    case 232 => -102 case 233 => -107 case 234 => -111 case 235 => -112 case 236 => -113 case 237 => -115 case 238 => -116 case 239 => -117
    case 240 => -118 case 241 => -120 case 242 => -121 case 243 => -122 case 244 => -122 case 245 => -123 case 246 => -124 case 247 => -125
    case 248 => -125 case 249 => -126 case 250 => -126 case 251 => -126 case 252 => -127 case 253 => -127 case 254 => -127 case 255 => -127
    case _ => 0
  }

  /** Compare value for one phase, `(int16_t) table[i] * pwmRatio >> 5` plus
      half the carrier period. The shift of a negative product is arithmetic,
      i.e. a floor division, which Dafny's `/` by a positive divisor is. */
  function CompareValue(amplitude: int, ratio: int): (r: int)
    requires -127 <= amplitude <= 127 && 0 <= ratio <= MAX_RATIO
    // the 16-bit product cannot overflow
    ensures -0x8000 <= amplitude * ratio < 0x8000
    // the value written to GRB/GRC/GRD stays strictly inside the carrier period
    ensures 3 <= r <= 1996 && r < PWM_MAX
    // the sign of the amplitude decides on which side of the midpoint it lands
    ensures amplitude >= 0 ==> r >= PWM_MAX / 2
    ensures amplitude <= 0 ==> r <= PWM_MAX / 2
  {
    ProductBounds(amplitude, ratio);
    amplitude * ratio / 32 + PWM_MAX / 2
  }

  lemma ProductBounds(a: int, b: int)
    requires -127 <= a <= 127 && 0 <= b <= MAX_RATIO
    ensures -127 * MAX_RATIO <= a * b <= 127 * MAX_RATIO
    ensures a >= 0 ==> a * b >= 0
    ensures a <= 0 ==> a * b <= 0
  {
    // 127 * MAX_RATIO - a * b == (127 - a) * b + 127 * (MAX_RATIO - b), and
    // 127 * MAX_RATIO + a * b == (127 + a) * b + 127 * (MAX_RATIO - b)
    NonNegativeProduct(127 - a, b);
    NonNegativeProduct(127 + a, b);
    if a >= 0 {
      NonNegativeProduct(a, b);
    } else {
      NonNegativeProduct(-a, b);
    }
  }

  lemma NonNegativeProduct(x: int, y: int)
    requires 0 <= x && 0 <= y
    ensures 0 <= x * y
  {
  }

  /** One step of the ramp done on every 32nd carrier period:
      `freq` moves one unit toward `reqFreq`. */
  function RampStep(freq: u16, reqFreq: u16): (r: u16)
    ensures -1 <= r - freq <= 1
    ensures freq <= reqFreq ==> freq <= r <= reqFreq
    ensures reqFreq <= freq ==> reqFreq <= r <= freq
    ensures r == freq <==> freq == reqFreq
  {
    if freq < reqFreq then freq + 1
    else if freq > reqFreq && freq != 0 then freq - 1
    else freq
  }

  /** `freq` after `n` ramp steps toward a fixed request. */
  function RampAfter(freq: u16, reqFreq: u16, n: nat): u16
    decreases n
  {
    if n == 0 then freq else RampAfter(RampStep(freq, reqFreq), reqFreq, n - 1)
  }

  /** With the request held, the ramp moves exactly one unit per step and
      settles on the request after `|freq - reqFreq|` steps, never overshooting. */
  lemma {:induction false} RampConverges(freq: u16, reqFreq: u16, n: nat)
    ensures RampAfter(freq, reqFreq, n) ==
      if freq <= reqFreq then (if freq + n <= reqFreq then freq + n else reqFreq)
      else (if freq - n >= reqFreq then freq - n else reqFreq)
    decreases n
  {
    if n > 0 {
      RampConverges(RampStep(freq, reqFreq), reqFreq, n - 1);
    }
  }

  /** `pwmRatio = freq * freqToPwm >> 6`, a 16-bit unsigned product,
      clamped at MAX_RATIO. */
  function PwmRatio(freq: u16, freqToPwm: u16): (r: int)
    ensures 0 <= r <= MAX_RATIO
  {
    var product := Wrap16(freq * freqToPwm);
    if product / 64 > MAX_RATIO then MAX_RATIO else product / 64
  }

  /** In the operating range (a product below 2^16, e.g. freq <= 256 and
      freqToPwm <= 255) the ratio is the volts-per-hertz law freq * gain / 64
      with saturation, so it never falls as the frequency rises. */
  lemma PwmRatioVoltsPerHertz(f1: u16, f2: u16, freqToPwm: u16)
    requires f1 <= f2 && f2 * freqToPwm < 0x1_0000
    ensures PwmRatio(f2, freqToPwm) == if f2 * freqToPwm / 64 > MAX_RATIO then MAX_RATIO else f2 * freqToPwm / 64
    ensures PwmRatio(f1, freqToPwm) <= PwmRatio(f2, freqToPwm)
  {
    var p1, p2 := f1 * freqToPwm, f2 * freqToPwm;
    assert 0 <= p1 <= p2 by {
      MulMonotone(f1, f2, freqToPwm);
    }
    assert Wrap16(p1) == p1 && Wrap16(p2) == p2;
    assert p1 / 64 <= p2 / 64;
  }

  lemma MulMonotone(a: nat, b: nat, c: nat)
    requires a <= b
    ensures a * c <= b * c
  {
  }

  /** `svpwmIndex = (fineIndex >> 7) & 0xff`: the table step of a phase accumulator. */
  function PhaseIndex(fineIndex: u16): (r: int)
    ensures 0 <= r < STEPS
    ensures r == fineIndex / 128 || r == fineIndex / 128 - STEPS
  {
    (fineIndex / 128) % STEPS
  }

  /** The accumulator walks forward by `freq`, or backward when the rotation
      direction is reversed, modulo 2^16. */
  function AdvancePhase(fineIndex: u16, freq: u16, reverse: bool): (r: u16)
    ensures Wrap16(r - fineIndex) == Wrap16((if reverse then -1 else 1) * freq)
  {
    if reverse then Wrap16(fineIndex - freq) else Wrap16(fineIndex + freq)
  }

  /** The injected common-mode term is added to all three phases, so their sum
      is not zero: at step 0 it is 5 + 127 - 127. */
  lemma TablesCarryCommonMode()
    ensures SvpwmU(0) + SvpwmV(0) + SvpwmW(0) == 5
  {
  }
}
