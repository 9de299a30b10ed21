/**
 No two entries of the table are registered under the same key: from the number
 of its name a search tree finds the place of every entry, so equal names would
 stand in one place.
 */
module RouteKeys {
  import opened RouteNames
  import opened RouteResolution
  import opened RouteRows
  import opened RouteTable

  function PlaceA(code: nat): nat {
    if code == 13762356710267144 then 137 else if code == 13762356714585286 then 37 else
    if code == 13762434676169031 then 204 else if code == 13762434678282566 then 136 else
    if code == 13762434679225927 then 280 else if code == 13762434682371662 then 114 else
    33
  }

  function PlaceB(code: nat): nat {
    if code == 13762434693905670 then 205 else if code == 13762434694954574 then 259 else
    if code == 13762434694979012 then 78 else if code == 13762477766261337 then 36 else
    if code == 13762477766261968 then 28 else if code == 13762477766261969 then 31 else
    if code == 13762477766261970 then 30 else 27
  }

  function PlaceC(code: nat): nat {
    if code == 13762477781031516 then 242 else if code == 13762477781032147 then 238 else
    if code == 13762477781032148 then 241 else if code == 13762477781032149 then 240 else
    if code == 13762477781032153 then 237 else if code == 13762485412584138 then 165 else
    if code == 13762485413526219 then 286 else 34
  }

  function PlaceD(code: nat): nat {
    if code == 13762485416672526 then 164 else if code == 13762485428206791 then 79 else
    if code == 13762485429280010 then 115 else if code == 13762485429288133 then 80 else
    if code == 13762485431442122 then 260 else if code == 13762519778582021 then 12 else
    if code == 13775552330407364 then 38 else 166
  }

  function PlaceE(code: nat): nat {
    if code == 13775628146620747 then 84 else if code == 13775628146727238 then 121 else
    if code == 13775628147670599 then 263 else if code == 13775628152987141 then 13 else
    if code == 13775628160252359 then 42 else if code == 13775628162350342 then 167 else
    if code == 13775628163423684 then 291 else 135
  }

  function PlaceF(code: nat): nat {
    if code == 13775629758283335 then 287 else if code == 13775629763599877 then 87 else
    if code == 13775672034933062 then 116 else if code == 13775672035924294 then 138 else
    if code == 13775672042184197 then 40 else if code == 13775672052620740 then 83 else
    if code == 13775672054782278 then 249 else 139
  }

  function PlaceG(code: nat): nat {
    if code == 13775672981708293 then 41 else if code == 13780077596417288 then 168 else
    if code == 13780077598628166 then 184 else if code == 13780077599571527 then 264 else
    if code == 13780077599652104 then 88 else if code == 13780077604888069 then 99 else
    if code == 13781176445427205 then 14 else 43
  }

  function PlaceH(code: nat): nat {
    if code == 13781176454790406 then 70 else if code == 13781176455838982 then 89 else
    if code == 13899872966925829 then 29 else if code == 13899872976419715 then 163 else
    if code == 13899872979523910 then 239 else if code == 13918659163208005 then 140 else
    if code == 14005349040045257 then 45 else 44
  }

  function PlaceI(code: nat): nat {
    if code == 14005349051578705 then 143 else if code == 14005349051579406 then 141 else
    if code == 14005349051579657 then 142 else if code == 14044931192381001 then 46 else
    if code == 14044931201743180 then 207 else if code == 14044931201744144 then 169 else
    if code == 14044931202922574 then 251 else 208
  }

  function PlaceJ(code: nat): nat {
    if code == 14056055826594120 then 144 else if code == 14056055828766213 then 48 else
    if code == 14056055832886471 then 47 else if code == 14056055839202756 then 90 else
    if code == 14065993307176195 then 117 else if code == 14065993316744451 then 145 else
    if code == 14181261769456392 then 294 else 4
  }

  function PlaceK(code: nat): nat {
    if code == 14181261786398279 then 8 else if code == 14181391693299271 then 262 else
    if code == 14181391698615813 then 15 else if code == 14181391709052356 then 49 else
    if code == 14181391711213894 then 236 else if code == 14185729204558151 then 170 else
    if code == 14185729206671686 then 122 else 171
  }

  function PlaceL(code: nat): nat {
    if code == 14185729220196807 then 51 else if code == 14185729223368132 then 292 else
    if code == 14185729223466182 then 52 else if code == 14185745849531596 then 50 else
    if code == 14185745849669958 then 185 else if code == 14185745854774408 then 228 else
    if code == 14185745855929861 then 100 else 229
  }

  function PlaceM(code: nat): nat {
    if code == 14190238252268808 then 82 else if code == 14190238260575502 then 81 else
    if code == 14335323051809094 then 146 else if code == 14335323052751175 then 209 else
    if code == 14335323052752455 then 281 else if code == 14335323053873480 then 118 else
    if code == 14335323056003410 then 54 else 55
  }

  function PlaceN(code: nat): nat {
    if code == 14335323058068997 then 53 else if code == 14335323067432199 then 210 else
    if code == 14336302304329298 then 160 else if code == 14336302304352582 then 133 else
    if code == 14336302307473739 then 196 else if code == 14336302310612485 then 24 else
    if code == 14336302317984078 then 110 else 197
  }

  function PlaceO(code: nat): nat {
    if code == 14336302319974729 then 198 else if code == 14336302319975175 then 161 else
    if code == 14336302321049028 then 73 else if code == 14336302323211856 then 258 else
    if code == 14338492469238086 then 128 else if code == 14338492470181447 then 274 else
    if code == 14338492475497989 then 20 else 220
  }

  function PlaceP(code: nat): nat {
    if code == 14338622123539271 then 221 else if code == 14338622126569799 then 222 else
    if code == 14338622137088708 then 94 else if code == 14347373935081989 then 56 else
    if code == 14347373938228356 then 148 else if code == 14347373938343494 then 57 else
    if code == 14347373943577734 then 149 else 147
  }

  function PlaceQ(code: nat): nat {
    if code == 14467135730121990 then 211 else if code == 14467135733283143 then 212 else
    if code == 14467135738600965 then 58 else if code == 14467144053840198 then 186 else
    if code == 14467144054783559 then 266 else if code == 14467144060100101 then 102 else
    if code == 14467144070641927 then 174 else 243
  }

  function PlaceR(code: nat): nat {
    if code == 14467220842002772 then 151 else if code == 14467220843175110 then 60 else
    if code == 14467256125643078 then 150 else if code == 14467256126586439 then 282 else
    if code == 14467256131902981 then 59 else if code == 14467256139275719 then 173 else
    if code == 14467256144501062 then 252 else 91
  }

  function PlaceS(code: nat): nat {
    if code == 14478249765525830 then 124 else if code == 14478249766469191 then 267 else
    if code == 14478249771785733 then 17 else if code == 14478249784383814 then 244 else
    if code == 14606892358482001 then 268 else if code == 14606892367919176 then 61 else
    if code == 14622174654373008 then 175 else 187
  }

  function PlaceT(code: nat): nat {
    if code == 14622174657428621 then 176 else if code == 14622174657429063 then 269 else
    if code == 14622174662745605 then 103 else if code == 14748643732872709 then 5 else
    if code == 14759784735340875 then 213 else if code == 14759784735415494 then 62 else
    if code == 14759784740657604 then 188 else 214
  }

  function PlaceU(code: nat): nat {
    if code == 14759784754355398 then 104 else if code == 14759784756402630 then 283 else
    if code == 14898280386017611 then 153 else if code == 15170942900418888 then 125 else
    if code == 15311645760601673 then 86 else if code == 15311645762772485 then 85 else
    if code == 15311645772134726 then 270 else 250
  }

  function PlaceV(code: nat): nat {
    if code == 15315966359394630 then 189 else if code == 15315966360337991 then 271 else
    if code == 15315966365654533 then 105 else if code == 15316087423761223 then 219 else
    if code == 15316087440481732 then 93 else if code == 15447908163640837 then 39 else
    if code == 15447908173003078 then 206 else 6
  }

  function PlaceW(code: nat): nat {
    if code == 15452461097410053 then 35 else if code == 15456781154934021 then 177 else
    if code == 15456781157136712 then 178 else if code == 15456781161249479 then 92 else
    if code == 15456781161249993 then 63 else if code == 15456781172784016 then 218 else
    if code == 15456781172784399 then 217 else 215
  }

  function PlaceX(code: nat): nat {
    if code == 15456781172784410 then 216 else if code == 15734880031489288 then 64 else
    if code == 15870291749968201 then 65 else if code == 15870291750050118 then 126 else
    if code == 15870291750993479 then 272 else if code == 15870291756310021 then 18 else
    if code == 15870291759463628 then 66 else 179
  }

  function PlaceY(code: nat): nat {
    if code == 15888932449073485 then 9 else if code == 15888932461656397 then 234 else
    if code == 15892170863819076 then 0 else if code == 15892170863819532 then 1 else
    if code == 16156071091362056 then 96 else if code == 16156071104921161 then 232 else
    if code == 16156071105994180 then 67 else 245
  }

  function PlaceZ(code: nat): nat {
    if code == 16156105314793800 then 225 else if code == 16156105314819341 then 152 else
    if code == 16156105316883205 then 246 else if code == 16156105316883721 then 68 else
    if code == 16156105325362441 then 98 else if code == 16156105335717320 then 273 else
    if code == 16156105715358023 then 224 else 180
  }

  function PlaceAA(code: nat): nat {
    if code == 16156105718413639 then 226 else if code == 16156105722575239 then 119 else
    if code == 16156105730088392 then 69 else if code == 16156105730096711 then 97 else
    if code == 16156105731078410 then 227 else if code == 16156105733094990 then 261 else
    if code == 16156114324200646 then 155 else 265
  }

  function PlaceAB(code: nat): nat {
    if code == 16167065535461835 then 181 else if code == 16167065537583625 then 127 else
    if code == 16167065537584325 then 19 else if code == 16167065538575945 then 101 else
    if code == 16167065544833291 then 182 else if code == 16167065548094664 then 16 else
    if code == 16167065551158857 then 253 else 123
  }

  function PlaceAC(code: nat): nat {
    if code == 16296730865588550 then 130 else if code == 16296730866531911 then 276 else
    if code == 16296730871848453 then 22 else if code == 16296730884446534 then 248 else
    if code == 16296731152881990 then 247 else if code == 16296756767512903 then 183 else
    if code == 16296756783266117 then 284 else 190
  }

  function PlaceAD(code: nat): nat {
    if code == 16296756787436037 then 275 else if code == 16296756788451657 then 192 else
    if code == 16296791937727236 then 223 else if code == 16296791951351236 then 95 else
    if code == 16296808583912965 then 108 else if code == 16296808593275207 then 203 else
    if code == 16296808594349508 then 77 else 254
  }

  function PlaceAE(code: nat): nat {
    if code == 16296809266429124 then 256 else if code == 16296809266429448 then 25 else
    if code == 16296809267624196 then 172 else if code == 16296842954046726 then 2 else
    if code == 16296850856237382 then 120 else if code == 16296850860326095 then 11 else
    if code == 16296850860326473 then 10 else 7
  }

  function PlaceAF(code: nat): nat {
    if code == 16296850874105037 then 32 else if code == 16296850875095366 then 233 else
    if code == 16296850875096274 then 235 else if code == 16296859177736518 then 129 else
    if code == 16296859183996421 then 21 else if code == 16296859194432964 then 293 else
    if code == 16296860115147079 then 194 else 131
  }

  function PlaceAG(code: nat): nat {
    if code == 16296860118202695 then 195 else if code == 16296860118203975 then 277 else
    if code == 16296860123520517 then 23 else if code == 16296860126625036 then 106 else
    if code == 16300028729383238 then 191 else if code == 16300028729383435 then 230 else
    if code == 16300028730326599 then 278 else 107
  }

  function PlaceAH(code: nat): nat {
    if code == 16300028745005396 then 71 else if code == 16300028745005581 then 154 else
    if code == 16300028745006293 then 156 else if code == 16300028746217668 then 255 else
    if code == 16300028748241222 then 289 else if code == 16300028750355724 then 109 else
    if code == 16300158515812679 then 157 else 132
  }

  function PlaceAI(code: nat): nat {
    if code == 16300158518869572 then 158 else if code == 16301180183271750 then 159 else
    if code == 16301180184215111 then 285 else if code == 16301180189531653 then 72 else
    if code == 16301180200992004 then 231 else if code == 16301180202129734 then 257 else
    if code == 16437547273943370 then 201 else 74
  }

  function PlaceAJ(code: nat): nat {
    if code == 16437547273944339 then 111 else if code == 16437547286592721 then 75 else
    if code == 16437580023093574 then 134 else if code == 16437580024036935 then 279 else
    if code == 16437580029353477 then 26 else if code == 16437580035578120 then 162 else
    if code == 16437580036619476 then 76 else 113
  }

  function PlaceAK(code: nat): nat {
    if code == 16437580038716622 then 202 else if code == 16437580826188937 then 200 else
    if code == 16437580826286987 then 199 else if code == 16437580838780103 then 112 else
    if code == 16437580844022924 then 288 else if code == 16437580845070670 then 290 else
    if code == 16593770420009220 then 193 else 3
  }

  /** The place of an entry among the pages, the rows and the fallback, by the number of its name. */
  function Place(code: nat): nat {
    if code < 14478249765525830 then
      if code < 14056055826594120 then
        if code < 13775628146620747 then
          if code < 13762477781031516 then
            if code < 13762434693905670 then
              PlaceA(code)
            else
              PlaceB(code)
          else
            if code < 13762485416672526 then
              PlaceC(code)
            else
              PlaceD(code)
        else
          if code < 13775672981708293 then
            if code < 13775629758283335 then
              PlaceE(code)
            else
              PlaceF(code)
          else
            if code < 13781176454790406 then
              PlaceG(code)
            else
              if code < 14005349051578705 then
                PlaceH(code)
              else
                PlaceI(code)
      else
        if code < 14335323058068997 then
          if code < 14185729220196807 then
            if code < 14181261786398279 then
              PlaceJ(code)
            else
              PlaceK(code)
          else
            if code < 14190238252268808 then
              PlaceL(code)
            else
              PlaceM(code)
        else
          if code < 14338622123539271 then
            if code < 14336302319974729 then
              PlaceN(code)
            else
              PlaceO(code)
          else
            if code < 14467135730121990 then
              PlaceP(code)
            else
              if code < 14467220842002772 then
                PlaceQ(code)
              else
                PlaceR(code)
    else
      if code < 16167065535461835 then
        if code < 15452461097410053 then
          if code < 14759784754355398 then
            if code < 14622174657428621 then
              PlaceS(code)
            else
              PlaceT(code)
          else
            if code < 15315966359394630 then
              PlaceU(code)
            else
              PlaceV(code)
        else
          if code < 15888932449073485 then
            if code < 15456781172784410 then
              PlaceW(code)
            else
              PlaceX(code)
          else
            if code < 16156105314793800 then
              PlaceY(code)
            else
              if code < 16156105718413639 then
                PlaceZ(code)
              else
                PlaceAA(code)
      else
        if code < 16296860118202695 then
          if code < 16296756787436037 then
            if code < 16296730865588550 then
              PlaceAB(code)
            else
              PlaceAC(code)
          else
            if code < 16296809266429124 then
              PlaceAD(code)
            else
              if code < 16296850874105037 then
                PlaceAE(code)
              else
                PlaceAF(code)
        else
          if code < 16300158518869572 then
            if code < 16300028745005396 then
              PlaceAG(code)
            else
              PlaceAH(code)
          else
            if code < 16437547273944339 then
              PlaceAI(code)
            else
              if code < 16437580038716622 then
                PlaceAJ(code)
              else
                PlaceAK(code)
  }

  predicate Placed(rows: seq<Row>, from: int) {
    forall k | 0 <= k < |rows| :: Place(IdCode(rows[k].id)) == from + k
  }

  lemma PlacedJoin(a: seq<Row>, b: seq<Row>, from: int)
    requires Placed(a, from) && Placed(b, from + |a|)
    ensures Placed(a + b, from)
  {
    hide Place;
  }

  /** The two entries with a postfix. */
  lemma PoliciesCodes()
    ensures IdCode(Postfixed(C_ADMIN_AREA_SETTINGS, M_GET_POLICY_SETTINGS, "AdminApi")) == 13762477766261337
    ensures IdCode(Postfixed(C_ADMIN_AREA_SETTINGS, M_UPDATE_POLICY_SETTINGS, "AdminApi")) == 13762477781031516
  {
  }

  lemma PathAPlaced()
    ensures |PATH_A| == 7 && Placed(PATH_A, 5)
  {
    hide NameCode, Correct;
  }

  lemma PathBPlaced()
    ensures |PATH_B| == 7 && Placed(PATH_B, 12)
  {
    hide NameCode, Correct;
  }

  lemma PathCPlaced()
    ensures |PATH_C| == 8 && Placed(PATH_C, 19)
  {
    hide NameCode, Correct;
  }

  lemma PathDPlaced()
    ensures |PATH_D| == 7 && Placed(PATH_D, 27)
  {
    hide NameCode, Correct;
  }

  lemma PathEPlaced()
    ensures |PATH_E| == 8 && Placed(PATH_E, 34)
  {
    hide NameCode, Correct;
    PoliciesCodes();
  }

  lemma ApplicationLiteralsPlaced()
    ensures |APPLICATION_LITERALS| == 1 && Placed(APPLICATION_LITERALS, 42)
  {
    hide NameCode, Correct;
  }

  lemma PathFPlaced()
    ensures |PATH_F| == 8 && Placed(PATH_F, 43)
  {
    hide NameCode, Correct;
  }

  lemma DeviceApprovalLiteralsPlaced()
    ensures |DEVICE_APPROVAL_LITERALS| == 2 && Placed(DEVICE_APPROVAL_LITERALS, 51)
  {
    hide NameCode, Correct;
  }

  lemma PathGPlaced()
    ensures |PATH_G| == 8 && Placed(PATH_G, 53)
  {
    hide NameCode, Correct;
  }

  lemma PathHPlaced()
    ensures |PATH_H| == 9 && Placed(PATH_H, 61)
  {
    hide NameCode, Correct;
  }

  lemma SecretLiteralsPlaced()
    ensures |SECRET_LITERALS| == 1 && Placed(SECRET_LITERALS, 70)
  {
    hide NameCode, Correct;
  }

  lemma PathIPlaced()
    ensures |PATH_I| == 8 && Placed(PATH_I, 71)
  {
    hide NameCode, Correct;
  }

  lemma PathJPlaced()
    ensures |PATH_J| == 8 && Placed(PATH_J, 79)
  {
    hide NameCode, Correct;
  }

  lemma PathKPlaced()
    ensures |PATH_K| == 8 && Placed(PATH_K, 87)
  {
    hide NameCode, Correct;
  }

  lemma PathLPlaced()
    ensures |PATH_L| == 8 && Placed(PATH_L, 95)
  {
    hide NameCode, Correct;
  }

  lemma PathMPlaced()
    ensures |PATH_M| == 8 && Placed(PATH_M, 103)
  {
    hide NameCode, Correct;
  }

  lemma PathNPlaced()
    ensures |PATH_N| == 9 && Placed(PATH_N, 111)
  {
    hide NameCode, Correct;
  }

  lemma PathOPlaced()
    ensures |PATH_O| == 9 && Placed(PATH_O, 120)
  {
    hide NameCode, Correct;
  }

  lemma PathPPlaced()
    ensures |PATH_P| == 9 && Placed(PATH_P, 129)
  {
    hide NameCode, Correct;
  }

  lemma PathQPlaced()
    ensures |PATH_Q| == 9 && Placed(PATH_Q, 138)
  {
    hide NameCode, Correct;
  }

  lemma PathRPlaced()
    ensures |PATH_R| == 9 && Placed(PATH_R, 147)
  {
    hide NameCode, Correct;
  }

  lemma PathSPlaced()
    ensures |PATH_S| == 9 && Placed(PATH_S, 156)
  {
    hide NameCode, Correct;
  }

  lemma PathTPlaced()
    ensures |PATH_T| == 9 && Placed(PATH_T, 165)
  {
    hide NameCode, Correct;
  }

  lemma PathUPlaced()
    ensures |PATH_U| == 9 && Placed(PATH_U, 174)
  {
    hide NameCode, Correct;
  }

  lemma PathVPlaced()
    ensures |PATH_V| == 9 && Placed(PATH_V, 183)
  {
    hide NameCode, Correct;
  }

  lemma PathWPlaced()
    ensures |PATH_W| == 9 && Placed(PATH_W, 192)
  {
    hide NameCode, Correct;
  }

  lemma PathXPlaced()
    ensures |PATH_X| == 9 && Placed(PATH_X, 201)
  {
    hide NameCode, Correct;
  }

  lemma PathYPlaced()
    ensures |PATH_Y| == 9 && Placed(PATH_Y, 210)
  {
    hide NameCode, Correct;
  }

  lemma PathZPlaced()
    ensures |PATH_Z| == 9 && Placed(PATH_Z, 219)
  {
    hide NameCode, Correct;
  }

  lemma PathAAPlaced()
    ensures |PATH_AA| == 9 && Placed(PATH_AA, 228)
  {
    hide NameCode, Correct;
  }

  lemma PathABPlaced()
    ensures |PATH_AB| == 9 && Placed(PATH_AB, 237)
  {
    hide NameCode, Correct;
    PoliciesCodes();
  }

  lemma PathACPlaced()
    ensures |PATH_AC| == 9 && Placed(PATH_AC, 246)
  {
    hide NameCode, Correct;
  }

  lemma PathADPlaced()
    ensures |PATH_AD| == 9 && Placed(PATH_AD, 255)
  {
    hide NameCode, Correct;
  }

  lemma PathAEPlaced()
    ensures |PATH_AE| == 9 && Placed(PATH_AE, 264)
  {
    hide NameCode, Correct;
  }

  lemma PathAFPlaced()
    ensures |PATH_AF| == 9 && Placed(PATH_AF, 273)
  {
    hide NameCode, Correct;
  }

  lemma PathAGPlaced()
    ensures |PATH_AG| == 9 && Placed(PATH_AG, 282)
  {
    hide NameCode, Correct;
  }

  lemma ApplicationByIdPlaced()
    ensures |APPLICATION_BY_ID| == 1 && Placed(APPLICATION_BY_ID, 291)
  {
    hide NameCode, Correct;
  }

  lemma DeviceApprovalByIdPlaced()
    ensures |DEVICE_APPROVAL_BY_ID| == 1 && Placed(DEVICE_APPROVAL_BY_ID, 292)
  {
    hide NameCode, Correct;
  }

  lemma SecretByIdPlaced()
    ensures |SECRET_BY_ID| == 1 && Placed(SECRET_BY_ID, 293)
  {
    hide NameCode, Correct;
  }

  lemma GetsOnePlaced()
    ensures |GetsOne()| == 37 && Placed(GetsOne(), 5)
  {
    hide Placed;
    PathAPlaced();
    var rows := PATH_A;
    PathBPlaced();
    PlacedJoin(rows, PATH_B, 5);
    rows := rows + PATH_B;
    PathCPlaced();
    PlacedJoin(rows, PATH_C, 5);
    rows := rows + PATH_C;
    PathDPlaced();
    PlacedJoin(rows, PATH_D, 5);
    rows := rows + PATH_D;
    PathEPlaced();
    PlacedJoin(rows, PATH_E, 5);
    rows := rows + PATH_E;
  }

  lemma GetsTwoPlaced()
    ensures |GetsTwo()| == 8 && Placed(GetsTwo(), 43)
  {
    hide Placed;
    PathFPlaced();
    var rows := PATH_F;
  }

  lemma GetsThreePlaced()
    ensures |GetsThree()| == 17 && Placed(GetsThree(), 53)
  {
    hide Placed;
    PathGPlaced();
    var rows := PATH_G;
    PathHPlaced();
    PlacedJoin(rows, PATH_H, 53);
    rows := rows + PATH_H;
  }

  lemma GetsFourPlaced()
    ensures |GetsFour()| == 49 && Placed(GetsFour(), 71)
  {
    hide Placed;
    PathIPlaced();
    var rows := PATH_I;
    PathJPlaced();
    PlacedJoin(rows, PATH_J, 71);
    rows := rows + PATH_J;
    PathKPlaced();
    PlacedJoin(rows, PATH_K, 71);
    rows := rows + PATH_K;
    PathLPlaced();
    PlacedJoin(rows, PATH_L, 71);
    rows := rows + PATH_L;
    PathMPlaced();
    PlacedJoin(rows, PATH_M, 71);
    rows := rows + PATH_M;
    PathNPlaced();
    PlacedJoin(rows, PATH_N, 71);
    rows := rows + PATH_N;
  }

  lemma OthersOnePlaced()
    ensures |OthersOne()| == 54 && Placed(OthersOne(), 120)
  {
    hide Placed;
    PathOPlaced();
    var rows := PATH_O;
    PathPPlaced();
    PlacedJoin(rows, PATH_P, 120);
    rows := rows + PATH_P;
    PathQPlaced();
    PlacedJoin(rows, PATH_Q, 120);
    rows := rows + PATH_Q;
    PathRPlaced();
    PlacedJoin(rows, PATH_R, 120);
    rows := rows + PATH_R;
    PathSPlaced();
    PlacedJoin(rows, PATH_S, 120);
    rows := rows + PATH_S;
    PathTPlaced();
    PlacedJoin(rows, PATH_T, 120);
    rows := rows + PATH_T;
  }

  lemma OthersTwoPlaced()
    ensures |OthersTwo()| == 54 && Placed(OthersTwo(), 174)
  {
    hide Placed;
    PathUPlaced();
    var rows := PATH_U;
    PathVPlaced();
    PlacedJoin(rows, PATH_V, 174);
    rows := rows + PATH_V;
    PathWPlaced();
    PlacedJoin(rows, PATH_W, 174);
    rows := rows + PATH_W;
    PathXPlaced();
    PlacedJoin(rows, PATH_X, 174);
    rows := rows + PATH_X;
    PathYPlaced();
    PlacedJoin(rows, PATH_Y, 174);
    rows := rows + PATH_Y;
    PathZPlaced();
    PlacedJoin(rows, PATH_Z, 174);
    rows := rows + PATH_Z;
  }

  lemma OthersThreePlaced()
    ensures |OthersThree()| == 63 && Placed(OthersThree(), 228)
  {
    hide Placed;
    PathAAPlaced();
    var rows := PATH_AA;
    PathABPlaced();
    PlacedJoin(rows, PATH_AB, 228);
    rows := rows + PATH_AB;
    PathACPlaced();
    PlacedJoin(rows, PATH_AC, 228);
    rows := rows + PATH_AC;
    PathADPlaced();
    PlacedJoin(rows, PATH_AD, 228);
    rows := rows + PATH_AD;
    PathAEPlaced();
    PlacedJoin(rows, PATH_AE, 228);
    rows := rows + PATH_AE;
    PathAFPlaced();
    PlacedJoin(rows, PATH_AF, 228);
    rows := rows + PATH_AF;
    PathAGPlaced();
    PlacedJoin(rows, PATH_AG, 228);
    rows := rows + PATH_AG;
  }

  lemma WildcardsPlaced()
    ensures |Wildcards()| == 3 && Placed(Wildcards(), 291)
  {
    hide Placed;
    ApplicationByIdPlaced();
    var rows := APPLICATION_BY_ID;
    DeviceApprovalByIdPlaced();
    PlacedJoin(rows, DEVICE_APPROVAL_BY_ID, 291);
    rows := rows + DEVICE_APPROVAL_BY_ID;
    SecretByIdPlaced();
    PlacedJoin(rows, SECRET_BY_ID, 291);
    rows := rows + SECRET_BY_ID;
  }

  lemma RowsPlaced()
    ensures |Rows()| == 289 && Placed(Rows(), 5)
  {
    hide Placed;
    GetsOnePlaced();
    GetsTwoPlaced();
    GetsThreePlaced();
    GetsFourPlaced();
    OthersOnePlaced();
    OthersTwoPlaced();
    OthersThreePlaced();
    ApplicationLiteralsPlaced();
    DeviceApprovalLiteralsPlaced();
    SecretLiteralsPlaced();
    WildcardsPlaced();
    hide GetsOne, GetsTwo, GetsThree, GetsFour, OthersOne, OthersTwo, OthersThree, Wildcards;
    var rows := GetsOne();
    PlacedJoin(rows, APPLICATION_LITERALS, 5);
    rows := rows + APPLICATION_LITERALS;
    PlacedJoin(rows, GetsTwo(), 5);
    rows := rows + GetsTwo();
    PlacedJoin(rows, DEVICE_APPROVAL_LITERALS, 5);
    rows := rows + DEVICE_APPROVAL_LITERALS;
    PlacedJoin(rows, GetsThree(), 5);
    rows := rows + GetsThree();
    PlacedJoin(rows, SECRET_LITERALS, 5);
    rows := rows + SECRET_LITERALS;
    PlacedJoin(rows, GetsFour(), 5);
    rows := rows + GetsFour();
    PlacedJoin(rows, OthersOne(), 5);
    rows := rows + OthersOne();
    PlacedJoin(rows, OthersTwo(), 5);
    rows := rows + OthersTwo();
    PlacedJoin(rows, OthersThree(), 5);
    rows := rows + OthersThree();
    PlacedJoin(rows, Wildcards(), 5);
    rows := rows + Wildcards();
    assert rows == Rows();
  }

  lemma PagesPlaced()
    ensures |PAGES| == 5 && forall k | 0 <= k < |PAGES| :: Place(IdCode(PAGES[k].id)) == k
    ensures Place(IdCode(CATCH_ALL.id)) == 294
  {
  }

  lemma {:induction false} RoutesAt(rows: seq<Row>)
    ensures |Routes(rows)| == |rows| && forall k | 0 <= k < |rows| :: Routes(rows)[k] == ToRoute(rows[k])
  {
    hide ToRoute;
    if rows != [] {
      RoutesAt(rows[1..]);
    }
  }

  /** Entries that stand in different places have different keys. */
  lemma PlacesApart(entries: seq<Route>)
    requires forall k | 0 <= k < |entries| :: Place(IdCode(entries[k].id)) == k
    ensures DistinctKeys(entries)
  {
    hide Place, IdCode;
    forall i, j | 0 <= i < j < |entries| ensures Key(entries[i]) != Key(entries[j]) {
      IdsApart(entries[i].id, entries[j].id);
    }
  }

  /** The (name, postfix) keys of the table's entries are pairwise distinct. */
  lemma EntriesDistinct()
    ensures DistinctKeys(Entries() + [CATCH_ALL])
  {
    PagesPlaced();
    RowsPlaced();
    RoutesAt(Rows());
    hide Place, IdCode, Rows, Routes;
    var entries := Entries() + [CATCH_ALL];
    forall k | 0 <= k < |entries| ensures Place(IdCode(entries[k].id)) == k {
      if 5 <= k < |Entries()| {
        assert entries[k] == ToRoute(Rows()[k - 5]);
      }
    }
    PlacesApart(entries);
  }
}
