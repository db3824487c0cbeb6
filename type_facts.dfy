/** What the lookups of the type table give on the table as written: its
    keys are distinct, the commented-out names are not keys, and where
    entries share an extension or a MIME type the entry written first wins.
    The facts about single entries are established in chunks of the table
    (`KeySignaturesFrom…`, `TableFrom…`) and gathered by `KeysIndexed` and
    `TableListsNone`. */
module TypeFacts {

  import opened Wrappers
  import opened JsText
  import opened Patterns
  import opened Types

  function Alternatives(e: Entry): seq<Alternative> {
    e.info.fileExtensionRegex.alternatives
  }

  // Keys. Each string is given a number made of its length and three of
  // its characters; the table's keys all have different numbers, and
  // `KeyIndex` maps each number back to its entry.

  function Code(s: string, i: int): int {
    if 0 <= i < |s| then s[i] as int else 0
  }

  function KeySignature(s: string): int {
    ((|s| * 256 + Code(s, 0)) * 256 + Code(s, 1)) * 256 + Code(s, |s| - 1)
  }

  /** The index of the entry whose key has the signature `x`, if any. */
  function KeyIndex(x: int): Option<nat> {
    if x < 88762721 then
      if x < 56256871 then
        if x < 55135817 then
          if x < 54612044 then
            if x < 37954339 then
              if x < 21233732 then
                if x == 21168195 then Some(10) else None
              else
                if x < 22151250 then
                  if x == 21233732 then Some(23) else None
                else
                  if x == 22151250 then Some(83) else None
            else
              if x < 38236015 then
                if x < 38150947 then
                  if x == 37954339 then Some(19) else None
                else
                  if x == 38150947 then Some(31) else None
              else
                if x < 38304121 then
                  if x == 38236015 then Some(34) else None
                else
                  if x == 38304121 then Some(42) else None
          else
            if x < 54743894 then
              if x < 54733611 then
                if x < 54617185 then
                  if x == 54612044 then Some(3) else None
                else
                  if x == 54617185 then Some(2) else None
              else
                if x < 54743891 then
                  if x == 54733611 then Some(17) else None
                else
                  if x == 54743891 then Some(20) else None
            else
              if x < 54751089 then
                if x < 54744389 then
                  if x == 54743894 then Some(21) else None
                else
                  if x == 54744389 then Some(22) else None
              else
                if x < 54881389 then
                  if x == 54751089 then Some(16) else None
                else
                  if x == 54881389 then Some(27) else None
        else
          if x < 55659852 then
            if x < 55395416 then
              if x < 55340903 then
                if x < 55202648 then
                  if x == 55135817 then Some(43) else None
                else
                  if x == 55202648 then Some(51) else None
              else
                if x < 55342433 then
                  if x == 55340903 then Some(57) else None
                else
                  if x == 55342433 then Some(58) else None
            else
              if x < 55593040 then
                if x < 55470445 then
                  if x == 55395416 then Some(62) else None
                else
                  if x == 55470445 then Some(65) else None
              else
                if x < 55604583 then
                  if x == 55593040 then Some(72) else None
                else
                  if x == 55604583 then Some(78) else None
          else
            if x < 55858008 then
              if x < 55791948 then
                if x < 55787859 then
                  if x == 55659852 then Some(82) else None
                else
                  if x == 55787859 then Some(90) else None
              else
                if x < 55858006 then
                  if x == 55791948 then Some(99) else None
                else
                  if x == 55858006 then Some(106) else None
            else
              if x < 56118604 then
                if x < 55862616 then
                  if x == 55858008 then Some(107) else None
                else
                  if x == 55862616 then Some(104) else None
              else
                if x < 56120140 then
                  if x == 56118604 then Some(121) else None
                else
                  if x == 56120140 then Some(122) else None
      else
        if x < 72507765 then
          if x < 71852389 then
            if x < 71723368 then
              if x < 71590260 then
                if x < 71385680 then
                  if x == 56256871 then Some(124) else None
                else
                  if x == 71385680 then Some(0) else None
              else
                if x < 71592294 then
                  if x == 71590260 then Some(24) else None
                else
                  if x == 71592294 then Some(25) else None
            else
              if x < 71849036 then
                if x < 71846988 then
                  if x == 71723368 then Some(30) else None
                else
                  if x == 71846988 then Some(39) else None
              else
                if x < 71849040 then
                  if x == 71849036 then Some(40) else None
                else
                  if x == 71849040 then Some(41) else None
          else
            if x < 72115571 then
              if x < 71979854 then
                if x < 71852395 then
                  if x == 71852389 then Some(38) else None
                else
                  if x == 71852395 then Some(36) else None
              else
                if x < 71983457 then
                  if x == 71979854 then Some(47) else None
                else
                  if x == 71983457 then Some(44) else None
            else
              if x < 72183663 then
                if x < 72119669 then
                  if x == 72115571 then Some(56) else None
                else
                  if x == 72119669 then Some(59) else None
              else
                if x < 72377708 then
                  if x == 72183663 then Some(63) else None
                else
                  if x == 72377708 then Some(71) else None
        else
          if x < 72763468 then
            if x < 72573299 then
              if x < 72512889 then
                if x < 72512884 then
                  if x == 72507765 then Some(85) else None
                else
                  if x == 72512884 then Some(89) else None
              else
                if x < 72565587 then
                  if x == 72512889 then Some(88) else None
                else
                  if x == 72565587 then Some(94) else None
            else
              if x < 72639860 then
                if x < 72634188 then
                  if x == 72573299 then Some(91) else None
                else
                  if x == 72634188 then Some(105) else None
              else
                if x < 72644455 then
                  if x == 72639860 then Some(125) else None
                else
                  if x == 72644455 then Some(109) else None
          else
            if x < 88237433 then
              if x < 72828748 then
                if x < 72769889 then
                  if x == 72763468 then Some(116) else None
                else
                  if x == 72769889 then Some(113) else None
              else
                if x < 72958284 then
                  if x == 72828748 then Some(119) else None
                else
                  if x == 72958284 then Some(123) else None
            else
              if x < 88297292 then
                if x < 88296805 then
                  if x == 88237433 then Some(8) else None
                else
                  if x == 88296805 then Some(12) else None
              else
                if x < 88757045 then
                  if x == 88297292 then Some(13) else None
                else
                  if x == 88757045 then Some(48) else None
    else
      if x < 122711891 then
        if x < 105726274 then
          if x < 89356148 then
            if x < 89024376 then
              if x < 88765793 then
                if x == 88762721 then Some(46) else None
              else
                if x < 88891736 then
                  if x == 88765793 then Some(52) else None
                else
                  if x == 88891736 then Some(54) else None
            else
              if x < 89351009 then
                if x < 89080684 then
                  if x == 89024376 then Some(64) else None
                else
                  if x == 89080684 then Some(69) else None
              else
                if x < 89352300 then
                  if x == 89351009 then Some(92) else None
                else
                  if x == 89352300 then Some(95) else None
          else
            if x < 105214567 then
              if x < 105015672 then
                if x < 89422196 then
                  if x == 89356148 then Some(101) else None
                else
                  if x == 89422196 then Some(112) else None
              else
                if x < 105213042 then
                  if x == 105015672 then Some(9) else None
                else
                  if x == 105213042 then Some(26) else None
            else
              if x < 105607022 then
                if x < 105345657 then
                  if x == 105214567 then Some(29) else None
                else
                  if x == 105345657 then Some(35) else None
              else
                if x < 105669940 then
                  if x == 105607022 then Some(53) else None
                else
                  if x == 105669940 then Some(55) else None
        else
          if x < 106128229 then
            if x < 105937262 then
              if x < 105935463 then
                if x < 105931116 then
                  if x == 105726274 then Some(61) else None
                else
                  if x == 105931116 then Some(70) else None
              else
                if x < 105936244 then
                  if x == 105935463 then Some(76) else None
                else
                  if x == 105936244 then Some(79) else None
            else
              if x < 106063216 then
                if x < 106062196 then
                  if x == 105937262 then Some(81) else None
                else
                  if x == 106062196 then Some(84) else None
              else
                if x < 106123340 then
                  if x == 106063216 then Some(86) else None
                else
                  if x == 106123340 then Some(98) else None
          else
            if x < 121860716 then
              if x < 106198373 then
                if x < 106133093 then
                  if x == 106128229 then Some(93) else None
                else
                  if x == 106133093 then Some(100) else None
              else
                if x < 121859173 then
                  if x == 106198373 then Some(108) else None
                else
                  if x == 121859173 then Some(11) else None
            else
              if x < 122184044 then
                if x < 122120302 then
                  if x == 121860716 then Some(18) else None
                else
                  if x == 122120302 then Some(33) else None
              else
                if x < 122582380 then
                  if x == 122184044 then Some(37) else None
                else
                  if x == 122582380 then Some(66) else None
      else
        if x < 173308276 then
          if x < 156525933 then
            if x < 138888308 then
              if x < 138507107 then
                if x < 123102567 then
                  if x == 122711891 then Some(74) else None
                else
                  if x == 123102567 then Some(115) else None
              else
                if x < 138507129 then
                  if x == 138507107 then Some(5) else None
                else
                  if x == 138507129 then Some(6) else None
            else
              if x < 139753827 then
                if x < 139288942 then
                  if x == 138888308 then Some(32) else None
                else
                  if x == 139288942 then Some(60) else None
              else
                if x < 156462443 then
                  if x == 139753827 then Some(111) else None
                else
                  if x == 156462443 then Some(96) else None
          else
            if x < 172643187 then
              if x < 172322160 then
                if x < 172122469 then
                  if x == 156525933 then Some(103) else None
                else
                  if x == 172122469 then Some(7) else None
              else
                if x < 172451151 then
                  if x == 172322160 then Some(28) else None
                else
                  if x == 172451151 then Some(73) else None
            else
              if x < 173043564 then
                if x < 172646772 then
                  if x == 172643187 then Some(50) else None
                else
                  if x == 172646772 then Some(45) else None
              else
                if x < 173045108 then
                  if x == 173043564 then Some(75) else None
                else
                  if x == 173045108 then Some(80) else None
        else
          if x < 206989667 then
            if x < 189751875 then
              if x < 188838004 then
                if x < 173435252 then
                  if x == 173308276 then Some(110) else None
                else
                  if x == 173435252 then Some(117) else None
              else
                if x < 188968816 then
                  if x == 188838004 then Some(4) else None
                else
                  if x == 188968816 then Some(15) else None
            else
              if x < 205611892 then
                if x < 190276985 then
                  if x == 189751875 then Some(67) else None
                else
                  if x == 190276985 then Some(118) else None
              else
                if x < 205746036 then
                  if x == 205611892 then Some(1) else None
                else
                  if x == 205746036 then Some(14) else None
          else
            if x < 289631347 then
              if x < 223574375 then
                if x < 223306283 then
                  if x == 206989667 then Some(114) else None
                else
                  if x == 223306283 then Some(68) else None
              else
                if x < 273835380 then
                  if x == 223574375 then Some(102) else None
                else
                  if x == 273835380 then Some(87) else None
            else
              if x < 306860915 then
                if x < 290484787 then
                  if x == 289631347 then Some(97) else None
                else
                  if x == 290484787 then Some(77) else None
              else
                if x < 458712435 then
                  if x == 306860915 then Some(49) else None
                else
                  if x == 458712435 then Some(120) else None
  }

  /** The signatures of the keys of entries 0 to 7. */
  function KeySignaturesFrom0(k: nat): int
    requires 0 <= k < 8
  {
    match k
    case 0 => 71385680
    case 1 => 205611892
    case 2 => 54617185
    case 3 => 54612044
    case 4 => 188838004
    case 5 => 138507107
    case 6 => 138507129
    case 7 => 172122469
  }

  lemma KeySignaturesFrom0Agree()
    ensures forall k :: 0 <= k < 8 ==> KeySignature(EntriesFrom0(k).key) == KeySignaturesFrom0(k)
  {
  }

  lemma KeySignaturesFrom0Indexed()
    ensures forall k :: 0 <= k < 8 ==> KeyIndex(KeySignaturesFrom0(k)) == Some(k)
  {
  }

  /** The signatures of the keys of entries 8 to 15. */
  function KeySignaturesFrom8(k: nat): int
    requires 8 <= k < 16
  {
    match k
    case 8 => 88237433
    case 9 => 105015672
    case 10 => 21168195
    case 11 => 121859173
    case 12 => 88296805
    case 13 => 88297292
    case 14 => 205746036
    case 15 => 188968816
  }

  lemma KeySignaturesFrom8Agree()
    ensures forall k :: 8 <= k < 16 ==> KeySignature(EntriesFrom8(k).key) == KeySignaturesFrom8(k)
  {
  }

  lemma KeySignaturesFrom8Indexed()
    ensures forall k :: 8 <= k < 16 ==> KeyIndex(KeySignaturesFrom8(k)) == Some(k)
  {
  }

  /** The signatures of the keys of entries 16 to 23. */
  function KeySignaturesFrom16(k: nat): int
    requires 16 <= k < 24
  {
    match k
    case 16 => 54751089
    case 17 => 54733611
    case 18 => 121860716
    case 19 => 37954339
    case 20 => 54743891
    case 21 => 54743894
    case 22 => 54744389
    case 23 => 21233732
  }

  lemma KeySignaturesFrom16Agree()
    ensures forall k :: 16 <= k < 24 ==> KeySignature(EntriesFrom16(k).key) == KeySignaturesFrom16(k)
  {
  }

  lemma KeySignaturesFrom16Indexed()
    ensures forall k :: 16 <= k < 24 ==> KeyIndex(KeySignaturesFrom16(k)) == Some(k)
  {
  }

  /** The signatures of the keys of entries 24 to 31. */
  function KeySignaturesFrom24(k: nat): int
    requires 24 <= k < 32
  {
    match k
    case 24 => 71590260
    case 25 => 71592294
    case 26 => 105213042
    case 27 => 54881389
    case 28 => 172322160
    case 29 => 105214567
    case 30 => 71723368
    case 31 => 38150947
  }

  lemma KeySignaturesFrom24Agree()
    ensures forall k :: 24 <= k < 32 ==> KeySignature(EntriesFrom24(k).key) == KeySignaturesFrom24(k)
  {
  }

  lemma KeySignaturesFrom24Indexed()
    ensures forall k :: 24 <= k < 32 ==> KeyIndex(KeySignaturesFrom24(k)) == Some(k)
  {
  }

  /** The signatures of the keys of entries 32 to 39. */
  function KeySignaturesFrom32(k: nat): int
    requires 32 <= k < 40
  {
    match k
    case 32 => 138888308
    case 33 => 122120302
    case 34 => 38236015
    case 35 => 105345657
    case 36 => 71852395
    case 37 => 122184044
    case 38 => 71852389
    case 39 => 71846988
  }

  lemma KeySignaturesFrom32Agree()
    ensures forall k :: 32 <= k < 40 ==> KeySignature(EntriesFrom32(k).key) == KeySignaturesFrom32(k)
  {
  }

  lemma KeySignaturesFrom32Indexed()
    ensures forall k :: 32 <= k < 40 ==> KeyIndex(KeySignaturesFrom32(k)) == Some(k)
  {
  }

  /** The signatures of the keys of entries 40 to 47. */
  function KeySignaturesFrom40(k: nat): int
    requires 40 <= k < 48
  {
    match k
    case 40 => 71849036
    case 41 => 71849040
    case 42 => 38304121
    case 43 => 55135817
    case 44 => 71983457
    case 45 => 172646772
    case 46 => 88762721
    case 47 => 71979854
  }

  lemma KeySignaturesFrom40Agree()
    ensures forall k :: 40 <= k < 48 ==> KeySignature(EntriesFrom40(k).key) == KeySignaturesFrom40(k)
  {
  }

  lemma KeySignaturesFrom40Indexed()
    ensures forall k :: 40 <= k < 48 ==> KeyIndex(KeySignaturesFrom40(k)) == Some(k)
  {
  }

  /** The signatures of the keys of entries 48 to 55. */
  function KeySignaturesFrom48(k: nat): int
    requires 48 <= k < 56
  {
    match k
    case 48 => 88757045
    case 49 => 306860915
    case 50 => 172643187
    case 51 => 55202648
    case 52 => 88765793
    case 53 => 105607022
    case 54 => 88891736
    case 55 => 105669940
  }

  lemma KeySignaturesFrom48Agree()
    ensures forall k :: 48 <= k < 56 ==> KeySignature(EntriesFrom48(k).key) == KeySignaturesFrom48(k)
  {
  }

  lemma KeySignaturesFrom48Indexed()
    ensures forall k :: 48 <= k < 56 ==> KeyIndex(KeySignaturesFrom48(k)) == Some(k)
  {
  }

  /** The signatures of the keys of entries 56 to 63. */
  function KeySignaturesFrom56(k: nat): int
    requires 56 <= k < 64
  {
    match k
    case 56 => 72115571
    case 57 => 55340903
    case 58 => 55342433
    case 59 => 72119669
    case 60 => 139288942
    case 61 => 105726274
    case 62 => 55395416
    case 63 => 72183663
  }

  lemma KeySignaturesFrom56Agree()
    ensures forall k :: 56 <= k < 64 ==> KeySignature(EntriesFrom56(k).key) == KeySignaturesFrom56(k)
  {
  }

  lemma KeySignaturesFrom56Indexed()
    ensures forall k :: 56 <= k < 64 ==> KeyIndex(KeySignaturesFrom56(k)) == Some(k)
  {
  }

  /** The signatures of the keys of entries 64 to 71. */
  function KeySignaturesFrom64(k: nat): int
    requires 64 <= k < 72
  {
    match k
    case 64 => 89024376
    case 65 => 55470445
    case 66 => 122582380
    case 67 => 189751875
    case 68 => 223306283
    case 69 => 89080684
    case 70 => 105931116
    case 71 => 72377708
  }

  lemma KeySignaturesFrom64Agree()
    ensures forall k :: 64 <= k < 72 ==> KeySignature(EntriesFrom64(k).key) == KeySignaturesFrom64(k)
  {
  }

  lemma KeySignaturesFrom64Indexed()
    ensures forall k :: 64 <= k < 72 ==> KeyIndex(KeySignaturesFrom64(k)) == Some(k)
  {
  }

  /** The signatures of the keys of entries 72 to 79. */
  function KeySignaturesFrom72(k: nat): int
    requires 72 <= k < 80
  {
    match k
    case 72 => 55593040
    case 73 => 172451151
    case 74 => 122711891
    case 75 => 173043564
    case 76 => 105935463
    case 77 => 290484787
    case 78 => 55604583
    case 79 => 105936244
  }

  lemma KeySignaturesFrom72Agree()
    ensures forall k :: 72 <= k < 80 ==> KeySignature(EntriesFrom72(k).key) == KeySignaturesFrom72(k)
  {
  }

  lemma KeySignaturesFrom72Indexed()
    ensures forall k :: 72 <= k < 80 ==> KeyIndex(KeySignaturesFrom72(k)) == Some(k)
  {
  }

  /** The signatures of the keys of entries 80 to 87. */
  function KeySignaturesFrom80(k: nat): int
    requires 80 <= k < 88
  {
    match k
    case 80 => 173045108
    case 81 => 105937262
    case 82 => 55659852
    case 83 => 22151250
    case 84 => 106062196
    case 85 => 72507765
    case 86 => 106063216
    case 87 => 273835380
  }

  lemma KeySignaturesFrom80Agree()
    ensures forall k :: 80 <= k < 88 ==> KeySignature(EntriesFrom80(k).key) == KeySignaturesFrom80(k)
  {
  }

  lemma KeySignaturesFrom80Indexed()
    ensures forall k :: 80 <= k < 88 ==> KeyIndex(KeySignaturesFrom80(k)) == Some(k)
  {
  }

  /** The signatures of the keys of entries 88 to 95. */
  function KeySignaturesFrom88(k: nat): int
    requires 88 <= k < 96
  {
    match k
    case 88 => 72512889
    case 89 => 72512884
    case 90 => 55787859
    case 91 => 72573299
    case 92 => 89351009
    case 93 => 106128229
    case 94 => 72565587
    case 95 => 89352300
  }

  lemma KeySignaturesFrom88Agree()
    ensures forall k :: 88 <= k < 96 ==> KeySignature(EntriesFrom88(k).key) == KeySignaturesFrom88(k)
  {
  }

  lemma KeySignaturesFrom88Indexed()
    ensures forall k :: 88 <= k < 96 ==> KeyIndex(KeySignaturesFrom88(k)) == Some(k)
  {
  }

  /** The signatures of the keys of entries 96 to 103. */
  function KeySignaturesFrom96(k: nat): int
    requires 96 <= k < 104
  {
    match k
    case 96 => 156462443
    case 97 => 289631347
    case 98 => 106123340
    case 99 => 55791948
    case 100 => 106133093
    case 101 => 89356148
    case 102 => 223574375
    case 103 => 156525933
  }

  lemma KeySignaturesFrom96Agree()
    ensures forall k :: 96 <= k < 104 ==> KeySignature(EntriesFrom96(k).key) == KeySignaturesFrom96(k)
  {
  }

  lemma KeySignaturesFrom96Indexed()
    ensures forall k :: 96 <= k < 104 ==> KeyIndex(KeySignaturesFrom96(k)) == Some(k)
  {
  }

  /** The signatures of the keys of entries 104 to 111. */
  function KeySignaturesFrom104(k: nat): int
    requires 104 <= k < 112
  {
    match k
    case 104 => 55862616
    case 105 => 72634188
    case 106 => 55858006
    case 107 => 55858008
    case 108 => 106198373
    case 109 => 72644455
    case 110 => 173308276
    case 111 => 139753827
  }

  lemma KeySignaturesFrom104Agree()
    ensures forall k :: 104 <= k < 112 ==> KeySignature(EntriesFrom104(k).key) == KeySignaturesFrom104(k)
  {
  }

  lemma KeySignaturesFrom104Indexed()
    ensures forall k :: 104 <= k < 112 ==> KeyIndex(KeySignaturesFrom104(k)) == Some(k)
  {
  }

  /** The signatures of the keys of entries 112 to 119. */
  function KeySignaturesFrom112(k: nat): int
    requires 112 <= k < 120
  {
    match k
    case 112 => 89422196
    case 113 => 72769889
    case 114 => 206989667
    case 115 => 123102567
    case 116 => 72763468
    case 117 => 173435252
    case 118 => 190276985
    case 119 => 72828748
  }

  lemma KeySignaturesFrom112Agree()
    ensures forall k :: 112 <= k < 120 ==> KeySignature(EntriesFrom112(k).key) == KeySignaturesFrom112(k)
  {
  }

  lemma KeySignaturesFrom112Indexed()
    ensures forall k :: 112 <= k < 120 ==> KeyIndex(KeySignaturesFrom112(k)) == Some(k)
  {
  }

  /** The signatures of the keys of entries 120 to 125. */
  function KeySignaturesFrom120(k: nat): int
    requires 120 <= k < 126
  {
    match k
    case 120 => 458712435
    case 121 => 56118604
    case 122 => 56120140
    case 123 => 72958284
    case 124 => 56256871
    case 125 => 72639860
  }

  lemma KeySignaturesFrom120Agree()
    ensures forall k :: 120 <= k < 126 ==> KeySignature(EntriesFrom120(k).key) == KeySignaturesFrom120(k)
  {
  }

  lemma KeySignaturesFrom120Indexed()
    ensures forall k :: 120 <= k < 126 ==> KeyIndex(KeySignaturesFrom120(k)) == Some(k)
  {
  }

  lemma KeysIndexed()
    ensures forall k :: 0 <= k < |AcceptedTypes()| ==> KeyIndex(KeySignature(AcceptedTypes()[k].key)) == Some(k)
  {
    forall k | 0 <= k < |AcceptedTypes()|
      ensures KeyIndex(KeySignature(AcceptedTypes()[k].key)) == Some(k)
    {
      if k < 64 {
        if k < 32 {
          if k < 16 {
            if k < 8 {
              KeySignaturesFrom0Agree();
              KeySignaturesFrom0Indexed();
            } else {
              KeySignaturesFrom8Agree();
              KeySignaturesFrom8Indexed();
            }
          } else {
            if k < 24 {
              KeySignaturesFrom16Agree();
              KeySignaturesFrom16Indexed();
            } else {
              KeySignaturesFrom24Agree();
              KeySignaturesFrom24Indexed();
            }
          }
        } else {
          if k < 48 {
            if k < 40 {
              KeySignaturesFrom32Agree();
              KeySignaturesFrom32Indexed();
            } else {
              KeySignaturesFrom40Agree();
              KeySignaturesFrom40Indexed();
            }
          } else {
            if k < 56 {
              KeySignaturesFrom48Agree();
              KeySignaturesFrom48Indexed();
            } else {
              KeySignaturesFrom56Agree();
              KeySignaturesFrom56Indexed();
            }
          }
        }
      } else {
        if k < 96 {
          if k < 80 {
            if k < 72 {
              KeySignaturesFrom64Agree();
              KeySignaturesFrom64Indexed();
            } else {
              KeySignaturesFrom72Agree();
              KeySignaturesFrom72Indexed();
            }
          } else {
            if k < 88 {
              KeySignaturesFrom80Agree();
              KeySignaturesFrom80Indexed();
            } else {
              KeySignaturesFrom88Agree();
              KeySignaturesFrom88Indexed();
            }
          }
        } else {
          if k < 112 {
            if k < 104 {
              KeySignaturesFrom96Agree();
              KeySignaturesFrom96Indexed();
            } else {
              KeySignaturesFrom104Agree();
              KeySignaturesFrom104Indexed();
            }
          } else {
            if k < 120 {
              KeySignaturesFrom112Agree();
              KeySignaturesFrom112Indexed();
            } else {
              KeySignaturesFrom120Agree();
              KeySignaturesFrom120Indexed();
            }
          }
        }
      }
    }
  }

  /** In any table where `KeyIndex` maps the signature of each key back to
      its index, no two entries share a key, each entry is found under its
      key, and a string whose signature maps nowhere is no key. */
  lemma KeysDistinctIn(t: seq<Entry>)
    requires forall k :: 0 <= k < |t| ==> KeyIndex(KeySignature(t[k].key)) == Some(k)
    ensures forall i, j :: 0 <= i < j < |t| ==> t[i].key != t[j].key
  {
    forall i, j | 0 <= i < j < |t| ensures t[i].key != t[j].key {
      assert KeyIndex(KeySignature(t[i].key)) == Some(i);
    }
  }

  lemma FindsKeyIn(t: seq<Entry>, k: nat)
    requires forall i :: 0 <= i < |t| ==> KeyIndex(KeySignature(t[i].key)) == Some(i)
    requires k < |t|
    ensures Find(t, HasKey(t[k].key)) == Some(k)
  {
    KeysDistinctIn(t);
    assert IsFirst(t, k, HasKey(t[k].key));
  }

  lemma NoKeyIn(t: seq<Entry>, s: string)
    requires forall i :: 0 <= i < |t| ==> KeyIndex(KeySignature(t[i].key)) == Some(i)
    requires KeyIndex(KeySignature(s)) == None
    ensures Find(t, HasKey(s)) == None
  {
    forall i | 0 <= i < |t| ensures !Meets(t[i], HasKey(s)) {
      assert KeyIndex(KeySignature(t[i].key)) == Some(i);
    }
  }

  /** No two entries of the table share a key. (An object literal that
      repeats a key keeps the last value at the place of the first, so this
      is what lets the ordered sequence stand for the object.) */
  lemma KeysDistinct()
    ensures forall i, j :: 0 <= i < j < |AcceptedTypes()| ==> AcceptedTypes()[i].key != AcceptedTypes()[j].key
  {
    KeysIndexed();
    KeysDistinctIn(AcceptedTypes());
  }

  /** `getType` finds every entry under its own key. */
  lemma GetTypeFindsEveryEntry(k: nat)
    requires k < |AcceptedTypes()|
    ensures GetType(AcceptedTypes()[k].key) == Some(AcceptedTypes()[k].info)
  {
    KeysIndexed();
    FindsKeyIn(AcceptedTypes(), k);
  }

  /** The same, for a key written out. */
  lemma GetTypeOf(k: nat, key: string)
    requires k < |AcceptedTypes()| && AcceptedTypes()[k].key == key
    ensures GetType(key) == Some(AcceptedTypes()[k].info)
  {
    GetTypeFindsEveryEntry(k);
  }

  /** A string whose signature belongs to no key is not a key. */
  lemma NotAKey(s: string)
    requires KeyIndex(KeySignature(s)) == None
    ensures GetType(s) == None
  {
    KeysIndexed();
    NoKeyIn(AcceptedTypes(), s);
  }

  /** The entries commented out of the table are not keys. */
  lemma CommentedOutNamesAreNotKeys()
    ensures GetType("Dockerfile") == None
    ensures GetType("DotEnv") == None
    ensures GetType("Makefile") == None
  {
    NotAKey("Dockerfile");
    NotAKey("DotEnv");
    NotAKey("Makefile");
  }

  /** Keys are compared exactly: `C` is a key, `c` is not. */
  lemma KeysAreCaseSensitive()
    ensures GetType("C") == Some(AcceptedTypes()[10].info)
    ensures GetType("c") == None
  {
    CIsAKey();
    LowerCIsNoKey();
  }

  lemma CIsAKey()
    ensures GetType("C") == Some(AcceptedTypes()[10].info)
  {
    GetTypeOf(10, "C");
  }

  lemma LowerCIsNoKey()
    ensures GetType("c") == None
  {
    NotAKey("c");
  }

  /** `extractNameFromName` and `extractTypeFromName` agree: both are null
      together, and the key returned is the key of the type returned. */
  lemma NameAndTypeAgree(name: string)
    ensures ExtractNameFromName(name).None? <==> ExtractTypeFromName(name).None?
    ensures ExtractNameFromName(name).Some? ==> GetType(ExtractNameFromName(name).value) == ExtractTypeFromName(name)
  {
    match Find(AcceptedTypes(), MatchesName(name))
    case Some(k) => GetTypeFindsEveryEntry(k);
    case None =>
  }

  /** `getAllTypes` lists no key twice, in either order. */
  lemma AllTypesWithoutRepeats(ordered: bool)
    ensures forall i, j :: 0 <= i < j < |GetAllTypes(ordered)| ==> GetAllTypes(ordered)[i] != GetAllTypes(ordered)[j]
  {
    KeysDistinct();
    var keys := Keys();
    assert forall i, j :: 0 <= i < j < |keys| ==> keys[i] != keys[j];
    if ordered {
      var r := GetAllTypes(true);
      forall i, j | 0 <= i < j < |r| ensures r[i] != r[j] {
        if r[i] == r[j] {
          RepeatCount(r, i, j);
          DistinctCount(keys, r[i]);
        }
      }
    }
  }

  // Extensions and MIME types. `ListsNone(e, words, mimes)` says that every
  // alternative of `e` is literal text other than `words`, and that its
  // MIME type is none of `mimes`.

  predicate ListsNone(e: Entry, words: seq<string>, mimes: seq<string>) {
    (forall i :: 0 <= i < |Alternatives(e)| ==> Alternatives(e)[i].Exact? && Alternatives(e)[i].text !in words)
    && e.info.mime !in mimes
  }

  /** No alternative of `e` matches a name whose last extension is `w`:
      no literal alternative is `w`, and a wildcard one neither ends in `w`
      nor has its length. */
  ghost predicate Misses(e: Entry, w: Word) {
    forall i :: 0 <= i < |Alternatives(e)| ==>
      match Alternatives(e)[i]
      case Exact(x) => x != w
      case Wildcard(b, a) => a != w && |w| != |b| + 1 + |a|
  }

  lemma MissesDotted(e: Entry, stem: string, w: Word)
    requires Misses(e, w)
    ensures !Test(e.info.fileExtensionRegex, stem + "." + w)
  {
    var alts := Alternatives(e);
    DottedName(e.info.fileExtensionRegex, stem, w);
    forall i | 0 <= i < |alts|
      ensures alts[i] != Exact(w)
      ensures !(alts[i].Wildcard? && (alts[i].after == w || |w| == |alts[i].before| + 1 + |alts[i].after|))
    {
    }
  }

  /** Entries `lo` to `hi - 1` of `t` all miss `w`. */
  ghost predicate MissesAll(t: seq<Entry>, w: Word, lo: nat, hi: nat) {
    lo <= hi <= |t| && forall j :: lo <= j < hi ==> Misses(t[j], w)
  }

  lemma MissesJoin(t: seq<Entry>, w: Word, a: nat, b: nat, c: nat)
    requires MissesAll(t, w, a, b) && MissesAll(t, w, b, c)
    ensures MissesAll(t, w, a, c)
  {
  }

  lemma MissesPrefix(t: seq<Entry>, w: Word, lo: nat, mid: nat, hi: nat)
    requires MissesAll(t, w, lo, hi) && lo <= mid <= hi
    ensures MissesAll(t, w, lo, mid)
  {
  }

  /** Entries `lo` to `hi - 1` of `t` do not have the MIME type `m`. */
  ghost predicate AvoidsMime(t: seq<Entry>, m: string, lo: nat, hi: nat) {
    lo <= hi <= |t| && forall j :: lo <= j < hi ==> t[j].info.mime != m
  }

  lemma AvoidsMimeJoin(t: seq<Entry>, m: string, a: nat, b: nat, c: nat)
    requires AvoidsMime(t, m, a, b) && AvoidsMime(t, m, b, c)
    ensures AvoidsMime(t, m, a, c)
  {
  }

  /** In any table, the name `stem.w` goes to the first entry listing `w`
      when every entry before it misses `w`. */
  lemma FirstByExtensionIn(t: seq<Entry>, stem: string, w: Word, o: nat)
    requires o < |t| && Exact(w) in Alternatives(t[o])
    requires MissesAll(t, w, 0, o)
    ensures Find(t, MatchesName(stem + "." + w)) == Some(o)
  {
    var name := stem + "." + w;
    DottedName(t[o].info.fileExtensionRegex, stem, w);
    forall j | 0 <= j < o ensures !Meets(t[j], MatchesName(name)) {
      MissesDotted(t[j], stem, w);
    }
    assert IsFirst(t, o, MatchesName(name));
  }

  /** In any table, the first entry with MIME type `m` is found by it. */
  lemma FirstByMimeIn(t: seq<Entry>, m: string, o: nat)
    requires o < |t| && t[o].info.mime == m
    requires AvoidsMime(t, m, 0, o)
    ensures Find(t, HasMime(m)) == Some(o)
  {
    assert IsFirst(t, o, HasMime(m));
  }

  /** In any table, the first entry with MIME type `m` listing `w` is found
      for `stem.w` under `m` when every entry before it misses `w`, whatever
      its MIME type. */
  lemma FirstByMimeAndExtensionIn(t: seq<Entry>, m: string, stem: string, w: Word, o: nat)
    requires o < |t| && t[o].info.mime == m && Exact(w) in Alternatives(t[o])
    requires MissesAll(t, w, 0, o)
    ensures Find(t, HasMimeAndMatchesName(m, stem + "." + w)) == Some(o)
  {
    var name := stem + "." + w;
    DottedName(t[o].info.fileExtensionRegex, stem, w);
    forall j | 0 <= j < o ensures !Meets(t[j], HasMimeAndMatchesName(m, name)) {
      MissesDotted(t[j], stem, w);
    }
    assert IsFirst(t, o, HasMimeAndMatchesName(m, name));
  }

  /** The extensions the claims below are about that the entry at `j` may
      not list, because their first entry comes later, and `conf` before
      Nginx. */
  function PendingWords(j: int): seq<string> {
    if j < 6 then ["S", "s", "h", "v", "cpp", "json", "tex", "m", "mat", "p", "pp", "pl", "pm", "P", "r", "RData", "xsl", "conf"]
    else if j < 10 then ["h", "v", "cpp", "json", "tex", "m", "mat", "p", "pp", "pl", "pm", "P", "r", "RData", "xsl", "conf"]
    else if j < 16 then ["v", "cpp", "json", "tex", "m", "mat", "p", "pp", "pl", "pm", "P", "r", "RData", "xsl", "conf"]
    else if j < 17 then ["cpp", "json", "tex", "m", "mat", "p", "pp", "pl", "pm", "P", "r", "RData", "xsl", "conf"]
    else if j < 47 then ["json", "tex", "m", "mat", "p", "pp", "pl", "pm", "P", "r", "RData", "xsl", "conf"]
    else if j < 54 then ["tex", "m", "mat", "p", "pp", "pl", "pm", "P", "r", "RData", "xsl", "conf"]
    else if j < 61 then ["m", "mat", "p", "pp", "pl", "pm", "P", "r", "RData", "xsl", "conf"]
    else if j < 64 then ["p", "pp", "pl", "pm", "P", "r", "RData", "xsl", "conf"]
    else if j < 70 then ["p", "pp", "pl", "pm", "P", "r", "RData", "xsl"]
    else if j < 71 then ["pl", "pm", "P", "r", "RData", "xsl"]
    else if j < 76 then ["P", "r", "RData", "xsl"]
    else if j < 83 then ["r", "RData", "xsl"]
    else if j < 121 then ["xsl"]
    else []
  }

  /** The MIME types the claims below are about whose first entry comes
      after `j`. */
  function PendingMimes(j: int): seq<string> {
    if j < 10 then ["text/x-c", "text/javascript", "text/plain"]
    else if j < 45 then ["text/javascript", "text/plain"]
    else if j < 125 then ["text/plain"]
    else []
  }

  lemma TableFrom0To2()
    ensures forall k :: 0 <= k < 2 ==>
      ListsNone(EntriesFrom0(k), ["S", "s", "h", "v", "cpp", "json", "tex", "m", "mat", "p", "pp", "pl", "pm", "P", "r", "RData", "xsl", "conf"], ["text/x-c", "text/javascript", "text/plain"])
  {
  }

  lemma TableFrom2To4()
    ensures forall k :: 2 <= k < 4 ==>
      ListsNone(EntriesFrom0(k), ["S", "s", "h", "v", "cpp", "json", "tex", "m", "mat", "p", "pp", "pl", "pm", "P", "r", "RData", "xsl", "conf"], ["text/x-c", "text/javascript", "text/plain"])
  {
  }

  lemma TableFrom4To6()
    ensures forall k :: 4 <= k < 6 ==>
      ListsNone(EntriesFrom0(k), ["S", "s", "h", "v", "cpp", "json", "tex", "m", "mat", "p", "pp", "pl", "pm", "P", "r", "RData", "xsl", "conf"], ["text/x-c", "text/javascript", "text/plain"])
  {
  }

  lemma TableFrom6To7()
    ensures forall k :: 6 <= k < 7 ==>
      ListsNone(EntriesFrom0(k), ["h", "v", "cpp", "json", "tex", "m", "mat", "p", "pp", "pl", "pm", "P", "r", "RData", "xsl", "conf"], ["text/x-c", "text/javascript", "text/plain"])
  {
  }

  lemma TableFrom7To8()
    ensures forall k :: 7 <= k < 8 ==>
      ListsNone(EntriesFrom0(k), ["h", "v", "cpp", "json", "tex", "m", "mat", "p", "pp", "pl", "pm", "P", "r", "RData", "xsl", "conf"], ["text/x-c", "text/javascript", "text/plain"])
  {
  }

  lemma TableFrom8To10()
    ensures forall k :: 8 <= k < 10 ==>
      ListsNone(EntriesFrom8(k), ["h", "v", "cpp", "json", "tex", "m", "mat", "p", "pp", "pl", "pm", "P", "r", "RData", "xsl", "conf"], ["text/x-c", "text/javascript", "text/plain"])
  {
  }

  lemma TableFrom10To11()
    ensures forall k :: 10 <= k < 11 ==>
      ListsNone(EntriesFrom8(k), ["v", "cpp", "json", "tex", "m", "mat", "p", "pp", "pl", "pm", "P", "r", "RData", "xsl", "conf"], ["text/javascript", "text/plain"])
  {
  }

  lemma TableFrom11To13()
    ensures forall k :: 11 <= k < 13 ==>
      ListsNone(EntriesFrom8(k), ["v", "cpp", "json", "tex", "m", "mat", "p", "pp", "pl", "pm", "P", "r", "RData", "xsl", "conf"], ["text/javascript", "text/plain"])
  {
  }

  lemma TableFrom13To15()
    ensures forall k :: 13 <= k < 15 ==>
      ListsNone(EntriesFrom8(k), ["v", "cpp", "json", "tex", "m", "mat", "p", "pp", "pl", "pm", "P", "r", "RData", "xsl", "conf"], ["text/javascript", "text/plain"])
  {
  }

  lemma TableFrom15To16()
    ensures forall k :: 15 <= k < 16 ==>
      ListsNone(EntriesFrom8(k), ["v", "cpp", "json", "tex", "m", "mat", "p", "pp", "pl", "pm", "P", "r", "RData", "xsl", "conf"], ["text/javascript", "text/plain"])
  {
  }

  lemma TableFrom16To17()
    ensures forall k :: 16 <= k < 17 ==>
      ListsNone(EntriesFrom16(k), ["cpp", "json", "tex", "m", "mat", "p", "pp", "pl", "pm", "P", "r", "RData", "xsl", "conf"], ["text/javascript", "text/plain"])
  {
  }

  lemma TableFrom17To20()
    ensures forall k :: 17 <= k < 20 ==>
      ListsNone(EntriesFrom16(k), ["json", "tex", "m", "mat", "p", "pp", "pl", "pm", "P", "r", "RData", "xsl", "conf"], ["text/javascript", "text/plain"])
  {
  }

  lemma TableFrom20To23()
    ensures forall k :: 20 <= k < 23 ==>
      ListsNone(EntriesFrom16(k), ["json", "tex", "m", "mat", "p", "pp", "pl", "pm", "P", "r", "RData", "xsl", "conf"], ["text/javascript", "text/plain"])
  {
  }

  lemma TableFrom23To24()
    ensures forall k :: 23 <= k < 24 ==>
      ListsNone(EntriesFrom16(k), ["json", "tex", "m", "mat", "p", "pp", "pl", "pm", "P", "r", "RData", "xsl", "conf"], ["text/javascript", "text/plain"])
  {
  }

  lemma TableFrom24To26()
    ensures forall k :: 24 <= k < 26 ==>
      ListsNone(EntriesFrom24(k), ["json", "tex", "m", "mat", "p", "pp", "pl", "pm", "P", "r", "RData", "xsl", "conf"], ["text/javascript", "text/plain"])
  {
  }

  lemma TableFrom26To28()
    ensures forall k :: 26 <= k < 28 ==>
      ListsNone(EntriesFrom24(k), ["json", "tex", "m", "mat", "p", "pp", "pl", "pm", "P", "r", "RData", "xsl", "conf"], ["text/javascript", "text/plain"])
  {
  }

  lemma TableFrom28To30()
    ensures forall k :: 28 <= k < 30 ==>
      ListsNone(EntriesFrom24(k), ["json", "tex", "m", "mat", "p", "pp", "pl", "pm", "P", "r", "RData", "xsl", "conf"], ["text/javascript", "text/plain"])
  {
  }

  lemma TableFrom30To32()
    ensures forall k :: 30 <= k < 32 ==>
      ListsNone(EntriesFrom24(k), ["json", "tex", "m", "mat", "p", "pp", "pl", "pm", "P", "r", "RData", "xsl", "conf"], ["text/javascript", "text/plain"])
  {
  }

  lemma TableFrom32To36()
    ensures forall k :: 32 <= k < 36 ==>
      ListsNone(EntriesFrom32(k), ["json", "tex", "m", "mat", "p", "pp", "pl", "pm", "P", "r", "RData", "xsl", "conf"], ["text/javascript", "text/plain"])
  {
  }

  lemma TableFrom36To39()
    ensures forall k :: 36 <= k < 39 ==>
      ListsNone(EntriesFrom32(k), ["json", "tex", "m", "mat", "p", "pp", "pl", "pm", "P", "r", "RData", "xsl", "conf"], ["text/javascript", "text/plain"])
  {
  }

  lemma TableFrom39To40()
    ensures forall k :: 39 <= k < 40 ==>
      ListsNone(EntriesFrom32(k), ["json", "tex", "m", "mat", "p", "pp", "pl", "pm", "P", "r", "RData", "xsl", "conf"], ["text/javascript", "text/plain"])
  {
  }

  lemma TableFrom40To43()
    ensures forall k :: 40 <= k < 43 ==>
      ListsNone(EntriesFrom40(k), ["json", "tex", "m", "mat", "p", "pp", "pl", "pm", "P", "r", "RData", "xsl", "conf"], ["text/javascript", "text/plain"])
  {
  }

  lemma TableFrom43To45()
    ensures forall k :: 43 <= k < 45 ==>
      ListsNone(EntriesFrom40(k), ["json", "tex", "m", "mat", "p", "pp", "pl", "pm", "P", "r", "RData", "xsl", "conf"], ["text/javascript", "text/plain"])
  {
  }

  lemma TableFrom45To47()
    ensures forall k :: 45 <= k < 47 ==>
      ListsNone(EntriesFrom40(k), ["json", "tex", "m", "mat", "p", "pp", "pl", "pm", "P", "r", "RData", "xsl", "conf"], ["text/plain"])
  {
  }

  lemma TableFrom47To48()
    ensures forall k :: 47 <= k < 48 ==>
      ListsNone(EntriesFrom40(k), ["tex", "m", "mat", "p", "pp", "pl", "pm", "P", "r", "RData", "xsl", "conf"], ["text/plain"])
  {
  }

  lemma TableFrom48To51()
    ensures forall k :: 48 <= k < 51 ==>
      ListsNone(EntriesFrom48(k), ["tex", "m", "mat", "p", "pp", "pl", "pm", "P", "r", "RData", "xsl", "conf"], ["text/plain"])
  {
  }

  lemma TableFrom51To54()
    ensures forall k :: 51 <= k < 54 ==>
      ListsNone(EntriesFrom48(k), ["tex", "m", "mat", "p", "pp", "pl", "pm", "P", "r", "RData", "xsl", "conf"], ["text/plain"])
  {
  }

  lemma TableFrom54To56()
    ensures forall k :: 54 <= k < 56 ==>
      ListsNone(EntriesFrom48(k), ["m", "mat", "p", "pp", "pl", "pm", "P", "r", "RData", "xsl", "conf"], ["text/plain"])
  {
  }

  lemma TableFrom56To60()
    ensures forall k :: 56 <= k < 60 ==>
      ListsNone(EntriesFrom56(k), ["m", "mat", "p", "pp", "pl", "pm", "P", "r", "RData", "xsl", "conf"], ["text/plain"])
  {
  }

  lemma TableFrom60To61()
    ensures forall k :: 60 <= k < 61 ==>
      ListsNone(EntriesFrom56(k), ["m", "mat", "p", "pp", "pl", "pm", "P", "r", "RData", "xsl", "conf"], ["text/plain"])
  {
  }

  lemma TableFrom61To64()
    ensures forall k :: 61 <= k < 64 ==>
      ListsNone(EntriesFrom56(k), ["p", "pp", "pl", "pm", "P", "r", "RData", "xsl", "conf"], ["text/plain"])
  {
  }

  lemma TableFrom65To69()
    ensures forall k :: 65 <= k < 69 ==>
      ListsNone(EntriesFrom64(k), ["p", "pp", "pl", "pm", "P", "r", "RData", "xsl"], ["text/plain"])
  {
  }

  lemma TableFrom69To70()
    ensures forall k :: 69 <= k < 70 ==>
      ListsNone(EntriesFrom64(k), ["p", "pp", "pl", "pm", "P", "r", "RData", "xsl"], ["text/plain"])
  {
  }

  lemma TableFrom70To71()
    ensures forall k :: 70 <= k < 71 ==>
      ListsNone(EntriesFrom64(k), ["pl", "pm", "P", "r", "RData", "xsl"], ["text/plain"])
  {
  }

  lemma TableFrom71To72()
    ensures forall k :: 71 <= k < 72 ==>
      ListsNone(EntriesFrom64(k), ["P", "r", "RData", "xsl"], ["text/plain"])
  {
  }

  lemma TableFrom72To76()
    ensures forall k :: 72 <= k < 76 ==>
      ListsNone(EntriesFrom72(k), ["P", "r", "RData", "xsl"], ["text/plain"])
  {
  }

  lemma TableFrom76To80()
    ensures forall k :: 76 <= k < 80 ==>
      ListsNone(EntriesFrom72(k), ["r", "RData", "xsl"], ["text/plain"])
  {
  }

  lemma TableFrom80To83()
    ensures forall k :: 80 <= k < 83 ==>
      ListsNone(EntriesFrom80(k), ["r", "RData", "xsl"], ["text/plain"])
  {
  }

  lemma TableFrom83To88()
    ensures forall k :: 83 <= k < 88 ==>
      ListsNone(EntriesFrom80(k), ["xsl"], ["text/plain"])
  {
  }

  lemma TableFrom88To96()
    ensures forall k :: 88 <= k < 96 ==>
      ListsNone(EntriesFrom88(k), ["xsl"], ["text/plain"])
  {
  }

  lemma TableFrom96To104()
    ensures forall k :: 96 <= k < 104 ==>
      ListsNone(EntriesFrom96(k), ["xsl"], ["text/plain"])
  {
  }

  lemma TableFrom104To112()
    ensures forall k :: 104 <= k < 112 ==>
      ListsNone(EntriesFrom104(k), ["xsl"], ["text/plain"])
  {
  }

  lemma TableFrom112To120()
    ensures forall k :: 112 <= k < 120 ==>
      ListsNone(EntriesFrom112(k), ["xsl"], ["text/plain"])
  {
  }

  lemma TableFrom120To121()
    ensures forall k :: 120 <= k < 121 ==>
      ListsNone(EntriesFrom120(k), ["xsl"], ["text/plain"])
  {
  }

  lemma TableFrom121To125()
    ensures forall k :: 121 <= k < 125 ==>
      ListsNone(EntriesFrom120(k), [], ["text/plain"])
  {
  }

  lemma TableFrom125To126()
    ensures forall k :: 125 <= k < 126 ==>
      ListsNone(EntriesFrom120(k), [], [])
  {
  }

  /** Every entry but Nginx has only literal alternatives, and lists no
      pending extension and no pending MIME type. */
  lemma TableListsNone()
    ensures forall j :: 0 <= j < |AcceptedTypes()| && j != 64 ==>
      ListsNone(AcceptedTypes()[j], PendingWords(j), PendingMimes(j))
  {
    forall j | 0 <= j < |AcceptedTypes()| && j != 64
      ensures ListsNone(AcceptedTypes()[j], PendingWords(j), PendingMimes(j))
    {
      if j < 45 {
        if j < 17 {
          if j < 8 {
            if j < 4 {
              if j < 2 {
                TableFrom0To2();
              } else {
                TableFrom2To4();
              }
            } else {
              if j < 6 {
                TableFrom4To6();
              } else {
                if j < 7 {
                  TableFrom6To7();
                } else {
                  TableFrom7To8();
                }
              }
            }
          } else {
            if j < 13 {
              if j < 10 {
                TableFrom8To10();
              } else {
                if j < 11 {
                  TableFrom10To11();
                } else {
                  TableFrom11To13();
                }
              }
            } else {
              if j < 15 {
                TableFrom13To15();
              } else {
                if j < 16 {
                  TableFrom15To16();
                } else {
                  TableFrom16To17();
                }
              }
            }
          }
        } else {
          if j < 30 {
            if j < 24 {
              if j < 20 {
                TableFrom17To20();
              } else {
                if j < 23 {
                  TableFrom20To23();
                } else {
                  TableFrom23To24();
                }
              }
            } else {
              if j < 26 {
                TableFrom24To26();
              } else {
                if j < 28 {
                  TableFrom26To28();
                } else {
                  TableFrom28To30();
                }
              }
            }
          } else {
            if j < 39 {
              if j < 32 {
                TableFrom30To32();
              } else {
                if j < 36 {
                  TableFrom32To36();
                } else {
                  TableFrom36To39();
                }
              }
            } else {
              if j < 40 {
                TableFrom39To40();
              } else {
                if j < 43 {
                  TableFrom40To43();
                } else {
                  TableFrom43To45();
                }
              }
            }
          }
        }
      } else {
        if j < 71 {
          if j < 56 {
            if j < 48 {
              if j < 47 {
                TableFrom45To47();
              } else {
                TableFrom47To48();
              }
            } else {
              if j < 51 {
                TableFrom48To51();
              } else {
                if j < 54 {
                  TableFrom51To54();
                } else {
                  TableFrom54To56();
                }
              }
            }
          } else {
            if j < 65 {
              if j < 60 {
                TableFrom56To60();
              } else {
                if j < 61 {
                  TableFrom60To61();
                } else {
                  TableFrom61To64();
                }
              }
            } else {
              if j < 69 {
                TableFrom65To69();
              } else {
                if j < 70 {
                  TableFrom69To70();
                } else {
                  TableFrom70To71();
                }
              }
            }
          }
        } else {
          if j < 96 {
            if j < 80 {
              if j < 72 {
                TableFrom71To72();
              } else {
                if j < 76 {
                  TableFrom72To76();
                } else {
                  TableFrom76To80();
                }
              }
            } else {
              if j < 83 {
                TableFrom80To83();
              } else {
                if j < 88 {
                  TableFrom83To88();
                } else {
                  TableFrom88To96();
                }
              }
            }
          } else {
            if j < 120 {
              if j < 104 {
                TableFrom96To104();
              } else {
                if j < 112 {
                  TableFrom104To112();
                } else {
                  TableFrom112To120();
                }
              }
            } else {
              if j < 121 {
                TableFrom120To121();
              } else {
                if j < 125 {
                  TableFrom121To125();
                } else {
                  TableFrom125To126();
                }
              }
            }
          }
        }
      }
    }
  }

  /** Nginx, the one entry whose pattern holds the wildcard. */
  lemma NginxEntry()
    ensures AcceptedTypes()[64] == Entry("Nginx", AcceptedType("nginx", ExtensionRegex([Wildcard("nginx", "conf")]), "text/x-nginx-conf"))
  {
  }

  /** Entries `lo` to `hi - 1` all miss `w` when `w` is pending at each of
      them and, if Nginx is among them, `w` is neither `conf` nor ten
      characters long. */
  lemma MissedBetween(w: Word, lo: nat, hi: nat)
    requires lo <= hi <= |AcceptedTypes()|
    requires forall j :: lo <= j < hi && j != 64 ==> w in PendingWords(j)
    requires lo <= 64 < hi ==> w != "conf" && |w| != 10
    ensures MissesAll(AcceptedTypes(), w, lo, hi)
  {
    TableListsNone();
    NginxEntry();
  }

  /** Entries `lo` to `hi - 1` do not have the MIME type `m` when `m` is
      pending at each of them. */
  lemma MimeMissedBetween(m: string, lo: nat, hi: nat)
    requires lo <= hi <= |AcceptedTypes()|
    requires forall j :: lo <= j < hi && j != 64 ==> m in PendingMimes(j)
    requires lo <= 64 < hi ==> m != "text/x-nginx-conf"
    ensures AvoidsMime(AcceptedTypes(), m, lo, hi)
  {
    TableListsNone();
    NginxEntry();
  }

  /** A name `stem.w` goes to the entry `o`, under `key`, listing `w` when
      every entry before it misses `w`. */
  lemma FirstByExtension(stem: string, w: Word, o: nat, key: string)
    requires o < |AcceptedTypes()| && AcceptedTypes()[o].key == key && Exact(w) in Alternatives(AcceptedTypes()[o])
    requires MissesAll(AcceptedTypes(), w, 0, o)
    ensures ExtractNameFromName(stem + "." + w) == Some(key)
    ensures ExtractTypeFromName(stem + "." + w) == GetType(key)
  {
    FirstByExtensionIn(AcceptedTypes(), stem, w, o);
    GetTypeOf(o, key);
  }

  /** A name without a dot has no type, since every pattern asks for one. */
  lemma NamesWithoutDotHaveNoType(name: string)
    ensures '.' !in name ==> ExtractTypeFromName(name) == None && ExtractNameFromName(name) == None
  {
    forall k | 0 <= k < |AcceptedTypes()|
      ensures Meets(AcceptedTypes()[k], MatchesName(name)) ==> '.' in name
    {
      NoDotNoMatch(AcceptedTypes()[k].info.fileExtensionRegex, name);
    }
  }

  /** `c` is an extension of C, but the bare name `c` has no type. */
  lemma BareCHasNoType()
    ensures Exact("c") in Alternatives(AcceptedTypes()[10])
    ensures ExtractTypeFromName("c") == None
  {
    NamesWithoutDotHaveNoType("c");
  }

  /** Nginx's alternative `nginx.conf` accepts any character but a line
      terminator where its dot stands. */
  lemma NginxTakesAnyCharacter(stem: string, c: char)
    ensures Test(AcceptedTypes()[64].info.fileExtensionRegex, stem + ".nginx" + [c] + "conf") <==> !IsLineTerminator(c)
  {
    NginxEntry();
    assert stem + ".nginx" + [c] + "conf" == stem + "." + "nginx" + [c] + "conf";
    SingleWildcard(stem, "nginx", "conf", c);
  }

  /** In any table, a name `stem.nginx.conf` goes to the entry at 64 when
      its pattern matches the name and no entry before it lists `conf`. */
  lemma NginxFirstIn(t: seq<Entry>, stem: string)
    requires 64 < |t| && Test(t[64].info.fileExtensionRegex, stem + ".nginx.conf")
    requires MissesAll(t, "conf", 0, 64)
    ensures Find(t, MatchesName(stem + ".nginx.conf")) == Some(64)
  {
    var name := stem + ".nginx.conf";
    assert name == (stem + ".nginx") + "." + "conf";
    forall j | 0 <= j < 64 ensures !Meets(t[j], MatchesName(name)) {
      MissesDotted(t[j], stem + ".nginx", "conf");
    }
    assert IsFirst(t, 64, MatchesName(name));
  }

  /** A name ending in `.nginx.conf` is Nginx: no entry before it lists
      `conf`. */
  lemma NginxConfNamesAreNginx(stem: string)
    ensures ExtractNameFromName(stem + ".nginx.conf") == Some("Nginx")
  {
    ConfMissedBefore64();
    NginxTakesAnyCharacter(stem, '.');
    assert stem + ".nginx" + ['.'] + "conf" == stem + ".nginx.conf";
    NginxFirstIn(AcceptedTypes(), stem);
    NginxEntry();
  }

  /** A document whose type is the MIME type of entry `o`, and of no entry
      before it, gets entry `o`, whatever its name. */
  lemma FirstByMime(d: DocumentLike, o: nat, key: string)
    requires o < |AcceptedTypes()| && AcceptedTypes()[o].key == key && AcceptedTypes()[o].info.mime == d.Type()
    requires AvoidsMime(AcceptedTypes(), d.Type(), 0, o)
    ensures ExtractTypeFromDocument(d) == GetType(key)
  {
    FirstByMimeIn(AcceptedTypes(), d.Type(), o);
    GetTypeOf(o, key);
  }

  /** MIME types that a later entry shares: C++ has C's, JSON with Comments
      JavaScript's. */
  lemma MimesSharedLater()
    ensures AcceptedTypes()[10].key == "C" && AcceptedTypes()[10].info.mime == "text/x-c"
    ensures AcceptedTypes()[17].key == "C++" && AcceptedTypes()[17].info.mime == "text/x-c"
    ensures AcceptedTypes()[45].key == "JavaScript" && AcceptedTypes()[45].info.mime == "text/javascript"
    ensures AcceptedTypes()[49].key == "JSON with Comments" && AcceptedTypes()[49].info.mime == "text/javascript"
  {
  }

  /** C and C++ share `text/x-c`; a document of that type is C. */
  lemma CMimeIsC(d: DocumentLike)
    requires d.Type() == "text/x-c"
    ensures ExtractTypeFromDocument(d) == GetType("C")
  {
    MimeMissedBetween("text/x-c", 0, 10);
    FirstByMime(d, 10, "C");
  }

  /** JavaScript and JSON with Comments share `text/javascript`; a document
      of that type is JavaScript. */
  lemma JavaScriptMimeIsJavaScript(d: DocumentLike)
    requires d.Type() == "text/javascript"
    ensures ExtractTypeFromDocument(d) == GetType("JavaScript")
  {
    MimeMissedBetween("text/javascript", 0, 10);
    MimeMissedBetween("text/javascript", 10, 45);
    AvoidsMimeJoin(AcceptedTypes(), "text/javascript", 0, 10, 45);
    FirstByMime(d, 45, "JavaScript");
  }

  /** The only entry with MIME type `DEFAULT_MIME` is the last, Text. */
  lemma OnlyTextIsPlain()
    ensures AcceptedTypes()[125].key == DefaultType && AcceptedTypes()[125].info.mime == DefaultMime
    ensures forall j :: 0 <= j < |AcceptedTypes()| && j != 125 ==> AcceptedTypes()[j].info.mime != DefaultMime
  {
    MimeMissedBetween(DefaultMime, 0, 10);
    MimeMissedBetween(DefaultMime, 10, 45);
    AvoidsMimeJoin(AcceptedTypes(), DefaultMime, 0, 10, 45);
    MimeMissedBetween(DefaultMime, 45, 125);
    AvoidsMimeJoin(AcceptedTypes(), DefaultMime, 0, 45, 125);
    assert AvoidsMime(AcceptedTypes(), DefaultMime, 0, 125);
  }

  /** `DEFAULT_TYPE` is the key of the last entry, Text, whose MIME type is
      `DEFAULT_MIME`, and no other entry has that MIME type. */
  lemma DefaultTypeIsText()
    ensures GetType(DefaultType) == Some(AcceptedTypes()[125].info)
    ensures AcceptedTypes()[125].info.mime == DefaultMime
    ensures forall j :: 0 <= j < |AcceptedTypes()| && j != 125 ==> AcceptedTypes()[j].info.mime != DefaultMime
  {
    OnlyTextIsPlain();
    GetTypeOf(125, DefaultType);
  }

  /** So a document typed `text/plain` always resolves to the Text entry. */
  lemma PlainTextDocumentsAreText(d: DocumentLike)
    requires d.Type() == DefaultMime
    ensures ExtractTypeFromDocument(d) == GetType(DefaultType)
  {
    OnlyTextIsPlain();
    FirstByMime(d, 125, DefaultType);
  }

  /** A `.cpp` document typed `text/x-c` is named C++ by
      `extractNameFromDocument`, because C's pattern refuses the name, while
      `extractTypeFromDocument` gives C on the MIME type alone. */
  lemma CppDocumentUnderCMime(d: DocumentLike, stem: string)
    requires d.Type() == "text/x-c" && d.Name() == stem + ".cpp"
    ensures ExtractNameFromDocument(d) == Some("C++")
    ensures ExtractTypeFromDocument(d) == GetType("C")
  {
    assert d.Name() == stem + "." + "cpp";
    CppMissedBefore17();
    FirstByMimeAndExtensionIn(AcceptedTypes(), "text/x-c", stem, "cpp", 17);
    CMimeIsC(d);
  }

  lemma MissedFrom0To6(w: Word)
    requires w in ["S", "s", "h", "v", "cpp", "json", "tex", "m", "mat", "p", "pp", "pl", "pm", "P", "r", "RData", "xsl", "conf"]
    ensures MissesAll(AcceptedTypes(), w, 0, 6)
  {
    MissedBetween(w, 0, 6);
  }

  lemma MissedFrom6To10(w: Word)
    requires w in ["h", "v", "cpp", "json", "tex", "m", "mat", "p", "pp", "pl", "pm", "P", "r", "RData", "xsl", "conf"]
    ensures MissesAll(AcceptedTypes(), w, 6, 10)
  {
    MissedBetween(w, 6, 10);
  }

  lemma MissedFrom10To16(w: Word)
    requires w in ["v", "cpp", "json", "tex", "m", "mat", "p", "pp", "pl", "pm", "P", "r", "RData", "xsl", "conf"]
    ensures MissesAll(AcceptedTypes(), w, 10, 16)
  {
    MissedBetween(w, 10, 16);
  }

  lemma MissedFrom16To17(w: Word)
    requires w in ["cpp", "json", "tex", "m", "mat", "p", "pp", "pl", "pm", "P", "r", "RData", "xsl", "conf"]
    ensures MissesAll(AcceptedTypes(), w, 16, 17)
  {
    MissedBetween(w, 16, 17);
  }

  lemma MissedFrom17To47(w: Word)
    requires w in ["json", "tex", "m", "mat", "p", "pp", "pl", "pm", "P", "r", "RData", "xsl", "conf"]
    ensures MissesAll(AcceptedTypes(), w, 17, 47)
  {
    MissedBetween(w, 17, 47);
  }

  lemma MissedFrom47To54(w: Word)
    requires w in ["tex", "m", "mat", "p", "pp", "pl", "pm", "P", "r", "RData", "xsl", "conf"]
    ensures MissesAll(AcceptedTypes(), w, 47, 54)
  {
    MissedBetween(w, 47, 54);
  }

  lemma MissedFrom54To61(w: Word)
    requires w in ["m", "mat", "p", "pp", "pl", "pm", "P", "r", "RData", "xsl", "conf"]
    ensures MissesAll(AcceptedTypes(), w, 54, 61)
  {
    MissedBetween(w, 54, 61);
  }

  lemma MissedFrom61To64(w: Word)
    requires w in ["p", "pp", "pl", "pm", "P", "r", "RData", "xsl", "conf"]
    ensures MissesAll(AcceptedTypes(), w, 61, 64)
  {
    MissedBetween(w, 61, 64);
  }

  lemma MissedFrom64To70(w: Word)
    requires w in ["p", "pp", "pl", "pm", "P", "r", "RData", "xsl"]
    requires w != "conf" && |w| != 10
    ensures MissesAll(AcceptedTypes(), w, 64, 70)
  {
    MissedBetween(w, 64, 70);
  }

  lemma MissedFrom70To71(w: Word)
    requires w in ["pl", "pm", "P", "r", "RData", "xsl"]
    ensures MissesAll(AcceptedTypes(), w, 70, 71)
  {
    MissedBetween(w, 70, 71);
  }

  lemma MissedFrom71To76(w: Word)
    requires w in ["P", "r", "RData", "xsl"]
    ensures MissesAll(AcceptedTypes(), w, 71, 76)
  {
    MissedBetween(w, 71, 76);
  }

  lemma MissedFrom76To83(w: Word)
    requires w in ["r", "RData", "xsl"]
    ensures MissesAll(AcceptedTypes(), w, 76, 83)
  {
    MissedBetween(w, 76, 83);
  }

  lemma MissedFrom83To121(w: Word)
    requires w in ["xsl"]
    ensures MissesAll(AcceptedTypes(), w, 83, 121)
  {
    MissedBetween(w, 83, 121);
  }

  lemma UpperSMissedBefore6()
    ensures MissesAll(AcceptedTypes(), "S", 0, 6)
  {
    MissedFrom0To6("S");
  }

  lemma LowerSMissedBefore6()
    ensures MissesAll(AcceptedTypes(), "s", 0, 6)
  {
    MissedFrom0To6("s");
  }

  lemma HMissedBefore10()
    ensures MissesAll(AcceptedTypes(), "h", 0, 10)
  {
    MissedFrom0To6("h");
    MissedFrom6To10("h");
    MissesJoin(AcceptedTypes(), "h", 0, 6, 10);
  }

  lemma VMissedBefore16()
    ensures MissesAll(AcceptedTypes(), "v", 0, 16)
  {
    MissedFrom0To6("v");
    MissedFrom6To10("v");
    MissesJoin(AcceptedTypes(), "v", 0, 6, 10);
    MissedFrom10To16("v");
    MissesJoin(AcceptedTypes(), "v", 0, 10, 16);
  }

  lemma CppMissedBefore17()
    ensures MissesAll(AcceptedTypes(), "cpp", 0, 17)
  {
    MissedFrom0To6("cpp");
    MissedFrom6To10("cpp");
    MissesJoin(AcceptedTypes(), "cpp", 0, 6, 10);
    MissedFrom10To16("cpp");
    MissesJoin(AcceptedTypes(), "cpp", 0, 10, 16);
    MissedFrom16To17("cpp");
    MissesJoin(AcceptedTypes(), "cpp", 0, 16, 17);
  }

  lemma JsonMissedBefore47()
    ensures MissesAll(AcceptedTypes(), "json", 0, 47)
  {
    MissedFrom0To6("json");
    MissedFrom6To10("json");
    MissesJoin(AcceptedTypes(), "json", 0, 6, 10);
    MissedFrom10To16("json");
    MissesJoin(AcceptedTypes(), "json", 0, 10, 16);
    MissedFrom16To17("json");
    MissesJoin(AcceptedTypes(), "json", 0, 16, 17);
    MissedFrom17To47("json");
    MissesJoin(AcceptedTypes(), "json", 0, 17, 47);
  }

  lemma TexMissedBefore54()
    ensures MissesAll(AcceptedTypes(), "tex", 0, 54)
  {
    MissedFrom0To6("tex");
    MissedFrom6To10("tex");
    MissesJoin(AcceptedTypes(), "tex", 0, 6, 10);
    MissedFrom10To16("tex");
    MissesJoin(AcceptedTypes(), "tex", 0, 10, 16);
    MissedFrom16To17("tex");
    MissesJoin(AcceptedTypes(), "tex", 0, 16, 17);
    MissedFrom17To47("tex");
    MissesJoin(AcceptedTypes(), "tex", 0, 17, 47);
    MissedFrom47To54("tex");
    MissesJoin(AcceptedTypes(), "tex", 0, 47, 54);
  }

  lemma MMissedBefore61()
    ensures MissesAll(AcceptedTypes(), "m", 0, 61)
  {
    MissedFrom0To6("m");
    MissedFrom6To10("m");
    MissesJoin(AcceptedTypes(), "m", 0, 6, 10);
    MissedFrom10To16("m");
    MissesJoin(AcceptedTypes(), "m", 0, 10, 16);
    MissedFrom16To17("m");
    MissesJoin(AcceptedTypes(), "m", 0, 16, 17);
    MissedFrom17To47("m");
    MissesJoin(AcceptedTypes(), "m", 0, 17, 47);
    MissedFrom47To54("m");
    MissesJoin(AcceptedTypes(), "m", 0, 47, 54);
    MissedFrom54To61("m");
    MissesJoin(AcceptedTypes(), "m", 0, 54, 61);
  }

  lemma MatMissedBefore61()
    ensures MissesAll(AcceptedTypes(), "mat", 0, 61)
  {
    MissedFrom0To6("mat");
    MissedFrom6To10("mat");
    MissesJoin(AcceptedTypes(), "mat", 0, 6, 10);
    MissedFrom10To16("mat");
    MissesJoin(AcceptedTypes(), "mat", 0, 10, 16);
    MissedFrom16To17("mat");
    MissesJoin(AcceptedTypes(), "mat", 0, 16, 17);
    MissedFrom17To47("mat");
    MissesJoin(AcceptedTypes(), "mat", 0, 17, 47);
    MissedFrom47To54("mat");
    MissesJoin(AcceptedTypes(), "mat", 0, 47, 54);
    MissedFrom54To61("mat");
    MissesJoin(AcceptedTypes(), "mat", 0, 54, 61);
  }

  lemma LowerPMissedBefore70()
    ensures MissesAll(AcceptedTypes(), "p", 0, 70)
  {
    MissedFrom0To6("p");
    MissedFrom6To10("p");
    MissesJoin(AcceptedTypes(), "p", 0, 6, 10);
    MissedFrom10To16("p");
    MissesJoin(AcceptedTypes(), "p", 0, 10, 16);
    MissedFrom16To17("p");
    MissesJoin(AcceptedTypes(), "p", 0, 16, 17);
    MissedFrom17To47("p");
    MissesJoin(AcceptedTypes(), "p", 0, 17, 47);
    MissedFrom47To54("p");
    MissesJoin(AcceptedTypes(), "p", 0, 47, 54);
    MissedFrom54To61("p");
    MissesJoin(AcceptedTypes(), "p", 0, 54, 61);
    MissedFrom61To64("p");
    MissesJoin(AcceptedTypes(), "p", 0, 61, 64);
    MissedFrom64To70("p");
    MissesJoin(AcceptedTypes(), "p", 0, 64, 70);
  }

  lemma PpMissedBefore70()
    ensures MissesAll(AcceptedTypes(), "pp", 0, 70)
  {
    MissedFrom0To6("pp");
    MissedFrom6To10("pp");
    MissesJoin(AcceptedTypes(), "pp", 0, 6, 10);
    MissedFrom10To16("pp");
    MissesJoin(AcceptedTypes(), "pp", 0, 10, 16);
    MissedFrom16To17("pp");
    MissesJoin(AcceptedTypes(), "pp", 0, 16, 17);
    MissedFrom17To47("pp");
    MissesJoin(AcceptedTypes(), "pp", 0, 17, 47);
    MissedFrom47To54("pp");
    MissesJoin(AcceptedTypes(), "pp", 0, 47, 54);
    MissedFrom54To61("pp");
    MissesJoin(AcceptedTypes(), "pp", 0, 54, 61);
    MissedFrom61To64("pp");
    MissesJoin(AcceptedTypes(), "pp", 0, 61, 64);
    MissedFrom64To70("pp");
    MissesJoin(AcceptedTypes(), "pp", 0, 64, 70);
  }

  lemma PlMissedBefore71()
    ensures MissesAll(AcceptedTypes(), "pl", 0, 71)
  {
    MissedFrom0To6("pl");
    MissedFrom6To10("pl");
    MissesJoin(AcceptedTypes(), "pl", 0, 6, 10);
    MissedFrom10To16("pl");
    MissesJoin(AcceptedTypes(), "pl", 0, 10, 16);
    MissedFrom16To17("pl");
    MissesJoin(AcceptedTypes(), "pl", 0, 16, 17);
    MissedFrom17To47("pl");
    MissesJoin(AcceptedTypes(), "pl", 0, 17, 47);
    MissedFrom47To54("pl");
    MissesJoin(AcceptedTypes(), "pl", 0, 47, 54);
    MissedFrom54To61("pl");
    MissesJoin(AcceptedTypes(), "pl", 0, 54, 61);
    MissedFrom61To64("pl");
    MissesJoin(AcceptedTypes(), "pl", 0, 61, 64);
    MissedFrom64To70("pl");
    MissesJoin(AcceptedTypes(), "pl", 0, 64, 70);
    MissedFrom70To71("pl");
    MissesJoin(AcceptedTypes(), "pl", 0, 70, 71);
  }

  lemma PmMissedBefore71()
    ensures MissesAll(AcceptedTypes(), "pm", 0, 71)
  {
    MissedFrom0To6("pm");
    MissedFrom6To10("pm");
    MissesJoin(AcceptedTypes(), "pm", 0, 6, 10);
    MissedFrom10To16("pm");
    MissesJoin(AcceptedTypes(), "pm", 0, 10, 16);
    MissedFrom16To17("pm");
    MissesJoin(AcceptedTypes(), "pm", 0, 16, 17);
    MissedFrom17To47("pm");
    MissesJoin(AcceptedTypes(), "pm", 0, 17, 47);
    MissedFrom47To54("pm");
    MissesJoin(AcceptedTypes(), "pm", 0, 47, 54);
    MissedFrom54To61("pm");
    MissesJoin(AcceptedTypes(), "pm", 0, 54, 61);
    MissedFrom61To64("pm");
    MissesJoin(AcceptedTypes(), "pm", 0, 61, 64);
    MissedFrom64To70("pm");
    MissesJoin(AcceptedTypes(), "pm", 0, 64, 70);
    MissedFrom70To71("pm");
    MissesJoin(AcceptedTypes(), "pm", 0, 70, 71);
  }

  lemma UpperPMissedBefore76()
    ensures MissesAll(AcceptedTypes(), "P", 0, 76)
  {
    MissedFrom0To6("P");
    MissedFrom6To10("P");
    MissesJoin(AcceptedTypes(), "P", 0, 6, 10);
    MissedFrom10To16("P");
    MissesJoin(AcceptedTypes(), "P", 0, 10, 16);
    MissedFrom16To17("P");
    MissesJoin(AcceptedTypes(), "P", 0, 16, 17);
    MissedFrom17To47("P");
    MissesJoin(AcceptedTypes(), "P", 0, 17, 47);
    MissedFrom47To54("P");
    MissesJoin(AcceptedTypes(), "P", 0, 47, 54);
    MissedFrom54To61("P");
    MissesJoin(AcceptedTypes(), "P", 0, 54, 61);
    MissedFrom61To64("P");
    MissesJoin(AcceptedTypes(), "P", 0, 61, 64);
    MissedFrom64To70("P");
    MissesJoin(AcceptedTypes(), "P", 0, 64, 70);
    MissedFrom70To71("P");
    MissesJoin(AcceptedTypes(), "P", 0, 70, 71);
    MissedFrom71To76("P");
    MissesJoin(AcceptedTypes(), "P", 0, 71, 76);
  }

  lemma LowerRMissedBefore83()
    ensures MissesAll(AcceptedTypes(), "r", 0, 83)
  {
    MissedFrom0To6("r");
    MissedFrom6To10("r");
    MissesJoin(AcceptedTypes(), "r", 0, 6, 10);
    MissedFrom10To16("r");
    MissesJoin(AcceptedTypes(), "r", 0, 10, 16);
    MissedFrom16To17("r");
    MissesJoin(AcceptedTypes(), "r", 0, 16, 17);
    MissedFrom17To47("r");
    MissesJoin(AcceptedTypes(), "r", 0, 17, 47);
    MissedFrom47To54("r");
    MissesJoin(AcceptedTypes(), "r", 0, 47, 54);
    MissedFrom54To61("r");
    MissesJoin(AcceptedTypes(), "r", 0, 54, 61);
    MissedFrom61To64("r");
    MissesJoin(AcceptedTypes(), "r", 0, 61, 64);
    MissedFrom64To70("r");
    MissesJoin(AcceptedTypes(), "r", 0, 64, 70);
    MissedFrom70To71("r");
    MissesJoin(AcceptedTypes(), "r", 0, 70, 71);
    MissedFrom71To76("r");
    MissesJoin(AcceptedTypes(), "r", 0, 71, 76);
    MissedFrom76To83("r");
    MissesJoin(AcceptedTypes(), "r", 0, 76, 83);
  }

  lemma RDataMissedBefore83()
    ensures MissesAll(AcceptedTypes(), "RData", 0, 83)
  {
    MissedFrom0To6("RData");
    MissedFrom6To10("RData");
    MissesJoin(AcceptedTypes(), "RData", 0, 6, 10);
    MissedFrom10To16("RData");
    MissesJoin(AcceptedTypes(), "RData", 0, 10, 16);
    MissedFrom16To17("RData");
    MissesJoin(AcceptedTypes(), "RData", 0, 16, 17);
    MissedFrom17To47("RData");
    MissesJoin(AcceptedTypes(), "RData", 0, 17, 47);
    MissedFrom47To54("RData");
    MissesJoin(AcceptedTypes(), "RData", 0, 47, 54);
    MissedFrom54To61("RData");
    MissesJoin(AcceptedTypes(), "RData", 0, 54, 61);
    MissedFrom61To64("RData");
    MissesJoin(AcceptedTypes(), "RData", 0, 61, 64);
    MissedFrom64To70("RData");
    MissesJoin(AcceptedTypes(), "RData", 0, 64, 70);
    MissedFrom70To71("RData");
    MissesJoin(AcceptedTypes(), "RData", 0, 70, 71);
    MissedFrom71To76("RData");
    MissesJoin(AcceptedTypes(), "RData", 0, 71, 76);
    MissedFrom76To83("RData");
    MissesJoin(AcceptedTypes(), "RData", 0, 76, 83);
  }

  lemma XslMissedBefore121()
    ensures MissesAll(AcceptedTypes(), "xsl", 0, 121)
  {
    MissedFrom0To6("xsl");
    MissedFrom6To10("xsl");
    MissesJoin(AcceptedTypes(), "xsl", 0, 6, 10);
    MissedFrom10To16("xsl");
    MissesJoin(AcceptedTypes(), "xsl", 0, 10, 16);
    MissedFrom16To17("xsl");
    MissesJoin(AcceptedTypes(), "xsl", 0, 16, 17);
    MissedFrom17To47("xsl");
    MissesJoin(AcceptedTypes(), "xsl", 0, 17, 47);
    MissedFrom47To54("xsl");
    MissesJoin(AcceptedTypes(), "xsl", 0, 47, 54);
    MissedFrom54To61("xsl");
    MissesJoin(AcceptedTypes(), "xsl", 0, 54, 61);
    MissedFrom61To64("xsl");
    MissesJoin(AcceptedTypes(), "xsl", 0, 61, 64);
    MissedFrom64To70("xsl");
    MissesJoin(AcceptedTypes(), "xsl", 0, 64, 70);
    MissedFrom70To71("xsl");
    MissesJoin(AcceptedTypes(), "xsl", 0, 70, 71);
    MissedFrom71To76("xsl");
    MissesJoin(AcceptedTypes(), "xsl", 0, 71, 76);
    MissedFrom76To83("xsl");
    MissesJoin(AcceptedTypes(), "xsl", 0, 76, 83);
    MissedFrom83To121("xsl");
    MissesJoin(AcceptedTypes(), "xsl", 0, 83, 121);
  }

  lemma ConfMissedBefore64()
    ensures MissesAll(AcceptedTypes(), "conf", 0, 64)
  {
    MissedFrom0To6("conf");
    MissedFrom6To10("conf");
    MissesJoin(AcceptedTypes(), "conf", 0, 6, 10);
    MissedFrom10To16("conf");
    MissesJoin(AcceptedTypes(), "conf", 0, 10, 16);
    MissedFrom16To17("conf");
    MissesJoin(AcceptedTypes(), "conf", 0, 16, 17);
    MissedFrom17To47("conf");
    MissesJoin(AcceptedTypes(), "conf", 0, 17, 47);
    MissedFrom47To54("conf");
    MissesJoin(AcceptedTypes(), "conf", 0, 47, 54);
    MissedFrom54To61("conf");
    MissesJoin(AcceptedTypes(), "conf", 0, 54, 61);
    MissedFrom61To64("conf");
    MissesJoin(AcceptedTypes(), "conf", 0, 61, 64);
  }

  /** Entries after the first that list `h` too. */
  lemma HListedAgain()
    ensures AcceptedTypes()[67].key == "Objective C" && Exact("h") in Alternatives(AcceptedTypes()[67])
    ensures AcceptedTypes()[68].key == "Objective C++" && Exact("h") in Alternatives(AcceptedTypes()[68])
  {
  }

  /** C, Objective C and Objective C++ all list `h`; C comes first. */
  lemma HeaderNamesAreC(stem: string)
    ensures ExtractNameFromName(stem + ".h") == Some("C")
    ensures ExtractTypeFromName(stem + ".h") == GetType("C")
  {
    HMissedBefore10();
    assert stem + ".h" == stem + "." + "h";
    FirstByExtension(stem, "h", 10, "C");
  }

  /** Entries after the first that list `json` too. */
  lemma JsonListedAgain()
    ensures AcceptedTypes()[48].key == "JSON5" && Exact("json") in Alternatives(AcceptedTypes()[48])
    ensures AcceptedTypes()[49].key == "JSON with Comments" && Exact("json") in Alternatives(AcceptedTypes()[49])
  {
  }

  /** JSON, JSON5 and JSON with Comments all list `json`; JSON comes first. */
  lemma JsonNamesAreJson(stem: string)
    ensures ExtractNameFromName(stem + ".json") == Some("JSON")
    ensures ExtractTypeFromName(stem + ".json") == GetType("JSON")
  {
    JsonMissedBefore47();
    assert stem + ".json" == stem + "." + "json";
    FirstByExtension(stem, "json", 47, "JSON");
  }

  /** Entries after the first that list `v` too. */
  lemma VListedAgain()
    ensures AcceptedTypes()[115].key == "Verilog" && Exact("v") in Alternatives(AcceptedTypes()[115])
  {
  }

  /** Coq and Verilog both list `v`; Coq comes first. */
  lemma VNamesAreCoq(stem: string)
    ensures ExtractNameFromName(stem + ".v") == Some("Coq")
    ensures ExtractTypeFromName(stem + ".v") == GetType("Coq")
  {
    VMissedBefore16();
    assert stem + ".v" == stem + "." + "v";
    FirstByExtension(stem, "v", 16, "Coq");
  }

  /** Entries after the first that list `pl` too. */
  lemma PlListedAgain()
    ensures AcceptedTypes()[76].key == "Prolog" && Exact("pl") in Alternatives(AcceptedTypes()[76])
  {
  }

  /** Perl and Prolog both list `pl`; Perl comes first. */
  lemma PlNamesArePerl(stem: string)
    ensures ExtractNameFromName(stem + ".pl") == Some("Perl")
    ensures ExtractTypeFromName(stem + ".pl") == GetType("Perl")
  {
    PlMissedBefore71();
    assert stem + ".pl" == stem + "." + "pl";
    FirstByExtension(stem, "pl", 71, "Perl");
  }

  /** Entries after the first that list `pm` too. */
  lemma PmListedAgain()
    ensures AcceptedTypes()[85].key == "Raku" && Exact("pm") in Alternatives(AcceptedTypes()[85])
  {
  }

  /** Perl and Raku both list `pm`; Perl comes first. */
  lemma PmNamesArePerl(stem: string)
    ensures ExtractNameFromName(stem + ".pm") == Some("Perl")
    ensures ExtractTypeFromName(stem + ".pm") == GetType("Perl")
  {
    PmMissedBefore71();
    assert stem + ".pm" == stem + "." + "pm";
    FirstByExtension(stem, "pm", 71, "Perl");
  }

  /** Entries after the first that list `pp` too. */
  lemma PpListedAgain()
    ensures AcceptedTypes()[79].key == "Puppet" && Exact("pp") in Alternatives(AcceptedTypes()[79])
  {
  }

  /** Pascal and Puppet both list `pp`; Pascal comes first. */
  lemma PpNamesArePascal(stem: string)
    ensures ExtractNameFromName(stem + ".pp") == Some("Pascal")
    ensures ExtractTypeFromName(stem + ".pp") == GetType("Pascal")
  {
    PpMissedBefore70();
    assert stem + ".pp" == stem + "." + "pp";
    FirstByExtension(stem, "pp", 70, "Pascal");
  }

  /** Entries after the first that list `m` too. */
  lemma MListedAgain()
    ensures AcceptedTypes()[67].key == "Objective C" && Exact("m") in Alternatives(AcceptedTypes()[67])
  {
  }

  /** MATLAB and Objective C both list `m`; MATLAB comes first. */
  lemma MNamesAreMatlab(stem: string)
    ensures ExtractNameFromName(stem + ".m") == Some("MATLAB")
    ensures ExtractTypeFromName(stem + ".m") == GetType("MATLAB")
  {
    MMissedBefore61();
    assert stem + ".m" == stem + "." + "m";
    FirstByExtension(stem, "m", 61, "MATLAB");
  }

  /** Entries after the first that list `mat` too. */
  lemma MatListedAgain()
    ensures AcceptedTypes()[118].key == "WebAssembly" && Exact("mat") in Alternatives(AcceptedTypes()[118])
  {
  }

  /** MATLAB and WebAssembly both list `mat`; MATLAB comes first. */
  lemma MatNamesAreMatlab(stem: string)
    ensures ExtractNameFromName(stem + ".mat") == Some("MATLAB")
    ensures ExtractTypeFromName(stem + ".mat") == GetType("MATLAB")
  {
    MatMissedBefore61();
    assert stem + ".mat" == stem + "." + "mat";
    FirstByExtension(stem, "mat", 61, "MATLAB");
  }

  /** Entries after the first that list `tex` too. */
  lemma TexListedAgain()
    ensures AcceptedTypes()[104].key == "TeX" && Exact("tex") in Alternatives(AcceptedTypes()[104])
  {
  }

  /** LaTeX and TeX both list `tex`; LaTeX comes first. */
  lemma TexNamesAreLatex(stem: string)
    ensures ExtractNameFromName(stem + ".tex") == Some("LaTeX")
    ensures ExtractTypeFromName(stem + ".tex") == GetType("LaTeX")
  {
    TexMissedBefore54();
    assert stem + ".tex" == stem + "." + "tex";
    FirstByExtension(stem, "tex", 54, "LaTeX");
  }

  /** Entries after the first that list `xsl` too. */
  lemma XslListedAgain()
    ensures AcceptedTypes()[122].key == "XSL" && Exact("xsl") in Alternatives(AcceptedTypes()[122])
  {
  }

  /** XML and XSL both list `xsl`; XML comes first. */
  lemma XslNamesAreXml(stem: string)
    ensures ExtractNameFromName(stem + ".xsl") == Some("XML")
    ensures ExtractTypeFromName(stem + ".xsl") == GetType("XML")
  {
    XslMissedBefore121();
    assert stem + ".xsl" == stem + "." + "xsl";
    FirstByExtension(stem, "xsl", 121, "XML");
  }

  lemma ExtensionOfUpperS(stem: string)
    ensures ExtractNameFromName(stem + ".S") == Some("Assembly")
    ensures ExtractTypeFromName(stem + ".S") == GetType("Assembly")
  {
    UpperSMissedBefore6();
    assert stem + ".S" == stem + "." + "S";
    FirstByExtension(stem, "S", 6, "Assembly");
  }

  lemma ExtensionOfLowerS(stem: string)
    ensures ExtractNameFromName(stem + ".s") == Some("Assembly")
    ensures ExtractTypeFromName(stem + ".s") == GetType("Assembly")
  {
    LowerSMissedBefore6();
    assert stem + ".s" == stem + "." + "s";
    FirstByExtension(stem, "s", 6, "Assembly");
  }

  /** Assembly lists both `s` and `S`. */
  lemma SNamesAreAssembly(stem: string)
    ensures ExtractNameFromName(stem + ".S") == Some("Assembly")
    ensures ExtractTypeFromName(stem + ".S") == GetType("Assembly")
    ensures ExtractNameFromName(stem + ".s") == Some("Assembly")
    ensures ExtractTypeFromName(stem + ".s") == GetType("Assembly")
  {
    ExtensionOfUpperS(stem);
    ExtensionOfLowerS(stem);
  }

  lemma ExtensionOfUpperP(stem: string)
    ensures ExtractNameFromName(stem + ".P") == Some("Prolog")
    ensures ExtractTypeFromName(stem + ".P") == GetType("Prolog")
  {
    UpperPMissedBefore76();
    assert stem + ".P" == stem + "." + "P";
    FirstByExtension(stem, "P", 76, "Prolog");
  }

  lemma ExtensionOfLowerP(stem: string)
    ensures ExtractNameFromName(stem + ".p") == Some("Pascal")
    ensures ExtractTypeFromName(stem + ".p") == GetType("Pascal")
  {
    LowerPMissedBefore70();
    assert stem + ".p" == stem + "." + "p";
    FirstByExtension(stem, "p", 70, "Pascal");
  }

  /** Extensions are compared exactly: `P` is Prolog's, `p` is Pascal's. */
  lemma PNamesFollowCase(stem: string)
    ensures ExtractNameFromName(stem + ".P") == Some("Prolog")
    ensures ExtractTypeFromName(stem + ".P") == GetType("Prolog")
    ensures ExtractNameFromName(stem + ".p") == Some("Pascal")
    ensures ExtractTypeFromName(stem + ".p") == GetType("Pascal")
  {
    ExtensionOfUpperP(stem);
    ExtensionOfLowerP(stem);
  }

  lemma ExtensionOfRData(stem: string)
    ensures ExtractNameFromName(stem + ".RData") == Some("R")
    ensures ExtractTypeFromName(stem + ".RData") == GetType("R")
  {
    RDataMissedBefore83();
    assert stem + ".RData" == stem + "." + "RData";
    FirstByExtension(stem, "RData", 83, "R");
  }

  lemma ExtensionOfLowerR(stem: string)
    ensures ExtractNameFromName(stem + ".r") == Some("R")
    ensures ExtractTypeFromName(stem + ".r") == GetType("R")
  {
    LowerRMissedBefore83();
    assert stem + ".r" == stem + "." + "r";
    FirstByExtension(stem, "r", 83, "R");
  }

  /** R lists `r` and `RData`. */
  lemma RNamesAreR(stem: string)
    ensures ExtractNameFromName(stem + ".RData") == Some("R")
    ensures ExtractTypeFromName(stem + ".RData") == GetType("R")
    ensures ExtractNameFromName(stem + ".r") == Some("R")
    ensures ExtractTypeFromName(stem + ".r") == GetType("R")
  {
    ExtensionOfRData(stem);
    ExtensionOfLowerR(stem);
  }

  lemma PrototypeSignatures()
    ensures forall m :: m in ObjectPrototypeMembers ==> KeyIndex(KeySignature(m)) == None
  {
  }

  /** None of the members every object inherits is a key. */
  lemma PrototypeMembersAreNotKeys()
    ensures forall m :: m in ObjectPrototypeMembers ==> GetType(m) == None
  {
    PrototypeSignatures();
    forall m | m in ObjectPrototypeMembers ensures GetType(m) == None {
      NotAKey(m);
    }
  }

  /** Where no key is `name`, `getType` as written returns the inherited
      member of that name, if there is one. */
  lemma AsWrittenWithoutKey(name: string)
    requires GetType(name) == None
    ensures GetTypeAsWritten(name) == if name in ObjectPrototypeMembers then Some(InheritedMember(name)) else None
  {
  }

  /** `getType` as written returns an inherited member for each of those
      names, where the table has no entry under it. */
  lemma InheritedMembersAreFoundAsWritten()
    ensures forall m :: m in ObjectPrototypeMembers ==> GetTypeAsWritten(m) == Some(InheritedMember(m)) && GetType(m) == None
  {
    PrototypeMembersAreNotKeys();
    forall m | m in ObjectPrototypeMembers ensures GetTypeAsWritten(m) == Some(InheritedMember(m)) {
      AsWrittenWithoutKey(m);
    }
  }
}
