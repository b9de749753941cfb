// INTERVAL_STRINGS and get_chord_for_intervals of the web version's theory
// module: the chord each interval string names, and the record returned for
// a string the table does not list.
module FlaskIntervals {
  import opened Py
  import opened IntervalCodes

  /** The INTERVAL_STRINGS entries as the file lists them. */
  function IntervalStringsAsWritten(s: string): Option<ChordInfo>
  {
    if s == [] then None
    else if s[0] == '1' then IntervalStringsAsWrittenFrom1(s)
    else if s[0] == '2' then IntervalStringsAsWrittenFrom2(s)
    else if s[0] == '3' then IntervalStringsAsWrittenFrom3(s)
    else if s[0] == '4' then IntervalStringsAsWrittenFrom4(s)
    else if s[0] == '5' then IntervalStringsAsWrittenFrom5(s)
    else if s[0] == '6' then IntervalStringsAsWrittenFrom6(s)
    else if s[0] == '7' then IntervalStringsAsWrittenFrom7(s)
    else if s[0] == '8' then IntervalStringsAsWrittenFrom8(s)
    else if s[0] == '9' then IntervalStringsAsWrittenFrom9(s)
    else None
  }

  function IntervalStringsAsWrittenFrom1(s: string): Option<ChordInfo>
  {
    match s
    case "108" => Some(ChordInfo(2, Flat5, 2))
    case "14" => Some(ChordInfo(1, Major7, 3))
    case "17" => Some(ChordInfo(1, Add5Major7, 0))
    case "105" => Some(ChordInfo(0, Minor7, 0))
    case "106" => Some(ChordInfo(0, Dominant7, 0))
    case "115" => Some(ChordInfo(0, Major7, 0))
    case "118" => Some(ChordInfo(0, Add5Major7, 0))
    case "134" => Some(ChordInfo(1, MinorMajor7, 3))
    case "143" => Some(ChordInfo(1, Major7, 3))
    case "178" => Some(ChordInfo(1, MinorMajor7, 3))
    case "179" => Some(ChordInfo(1, Major7, 3))
    case "1053" => Some(ChordInfo(0, HalfDiminished7, 0))
    case "1054" => Some(ChordInfo(0, Minor7, 0))
    case "1062" => Some(ChordInfo(0, Dominant7Flat5, 0))
    case "1063" => Some(ChordInfo(0, Dominant7, 0))
    case "1089" => Some(ChordInfo(0, HalfDiminished7, 0))
    case "1098" => Some(ChordInfo(0, Minor7, 0))
    case "1099" => Some(ChordInfo(0, Dominant7, 0))
    case "1153" => Some(ChordInfo(0, Major7, 0))
    case "1188" => Some(ChordInfo(0, MinorMajor7, 0))
    case "1189" => Some(ChordInfo(0, Major7, 0))
    case "1194" => Some(ChordInfo(0, MinorMajor7, 0))
    case "10810" => Some(ChordInfo(0, Dominant7Flat5, 0))
    case _ => None
  }

  function IntervalStringsAsWrittenFrom2(s: string): Option<ChordInfo>
  {
    match s
    case "25" => Some(ChordInfo(0, Sus2, 0))
    case "26" => Some(ChordInfo(2, Flat5, 1))
    case "23" => Some(ChordInfo(1, Minor7, 3))
    case "24" => Some(ChordInfo(1, Dominant7, 3))
    case "233" => Some(ChordInfo(1, HalfDiminished7, 3))
    case "234" => Some(ChordInfo(1, Minor7, 3))
    case "242" => Some(ChordInfo(3, Dominant7Flat5, 1))
    case "243" => Some(ChordInfo(1, Dominant7, 3))
    case "269" => Some(ChordInfo(1, HalfDiminished7, 3))
    case "278" => Some(ChordInfo(1, Minor7, 3))
    case "279" => Some(ChordInfo(1, Dominant7, 3))
    case "2610" => Some(ChordInfo(2, Dominant7Flat5, 1))
    case _ => None
  }

  function IntervalStringsAsWrittenFrom3(s: string): Option<ChordInfo>
  {
    match s
    case "3" => Some(ChordInfo(0, Minor, 0))
    case "33" => Some(ChordInfo(0, Diminished, 0))
    case "34" => Some(ChordInfo(0, Minor, 0))
    case "35" => Some(ChordInfo(2, Major, 1))
    case "36" => Some(ChordInfo(2, Diminished, 1))
    case "37" => Some(ChordInfo(0, Minor7, 0))
    case "323" => Some(ChordInfo(2, Minor7, 2))
    case "324" => Some(ChordInfo(2, Dominant7, 2))
    case "332" => Some(ChordInfo(3, Dominant7, 1))
    case "333" => Some(ChordInfo(0, Diminished7, 0))
    case "334" => Some(ChordInfo(0, HalfDiminished7, 0))
    case "341" => Some(ChordInfo(3, Major7, 1))
    case "342" => Some(ChordInfo(3, HalfDiminished7, 1))
    case "343" => Some(ChordInfo(0, Minor7, 0))
    case "344" => Some(ChordInfo(0, MinorMajor7, 0))
    case "359" => Some(ChordInfo(3, Minor7, 2))
    case "368" => Some(ChordInfo(3, Dominant7, 2))
    case "369" => Some(ChordInfo(0, Diminished7, 0))
    case "378" => Some(ChordInfo(0, HalfDiminished7, 0))
    case "379" => Some(ChordInfo(0, Minor7, 0))
    case "388" => Some(ChordInfo(0, MinorMajor7, 0))
    case "3510" => Some(ChordInfo(2, Dominant7, 1))
    case "3511" => Some(ChordInfo(2, Major7, 1))
    case "3610" => Some(ChordInfo(2, HalfDiminished7, 1))
    case _ => None
  }

  function IntervalStringsAsWrittenFrom4(s: string): Option<ChordInfo>
  {
    match s
    case "4" => Some(ChordInfo(0, Major, 0))
    case "42" => Some(ChordInfo(0, Flat5, 0))
    case "43" => Some(ChordInfo(0, Major, 0))
    case "44" => Some(ChordInfo(0, Augmented, 0))
    case "45" => Some(ChordInfo(2, Minor, 1))
    case "41" => Some(ChordInfo(2, Add5Major7, 0))
    case "46" => Some(ChordInfo(0, Dominant7, 0))
    case "47" => Some(ChordInfo(0, Major7, 0))
    case "413" => Some(ChordInfo(2, MinorMajor7, 2))
    case "414" => Some(ChordInfo(2, Major7, 2))
    case "424" => Some(ChordInfo(0, Dominant7Flat5, 0))
    case "423" => Some(ChordInfo(2, HalfDiminished7, 2))
    case "432" => Some(ChordInfo(3, Minor7, 1))
    case "433" => Some(ChordInfo(0, Dominant7, 0))
    case "434" => Some(ChordInfo(0, Major7, 0))
    case "441" => Some(ChordInfo(3, MinorMajor7, 1))
    case "443" => Some(ChordInfo(3, MinorMajor7, 2))
    case "445" => Some(ChordInfo(3, MinorMajor7, 3))
    case "453" => Some(ChordInfo(3, Major7, 2))
    case "459" => Some(ChordInfo(3, HalfDiminished7, 2))
    case "468" => Some(ChordInfo(0, Dominant7Flat5, 0))
    case "469" => Some(ChordInfo(0, Dominant7, 0))
    case "478" => Some(ChordInfo(0, Major7, 0))
    case "497" => Some(ChordInfo(2, MinorMajor7, 3))
    case "4510" => Some(ChordInfo(2, Minor7, 1))
    case "4511" => Some(ChordInfo(2, MinorMajor7, 1))
    case _ => None
  }

  function IntervalStringsAsWrittenFrom5(s: string): Option<ChordInfo>
  {
    match s
    case "5" => Some(ChordInfo(1, Add5, 0))
    case "53" => Some(ChordInfo(1, Minor, 2))
    case "52" => Some(ChordInfo(0, Sus4, 0))
    case "54" => Some(ChordInfo(1, Major, 2))
    case "58" => Some(ChordInfo(2, Major7, 3))
    case "59" => Some(ChordInfo(2, Minor7, 3))
    case "514" => Some(ChordInfo(1, MinorMajor7, 2))
    case "535" => Some(ChordInfo(3, Major7, 1))
    case "536" => Some(ChordInfo(3, HalfDiminished7, 3))
    case "537" => Some(ChordInfo(1, Minor7, 2))
    case "538" => Some(ChordInfo(1, MinorMajor7, 2))
    case "545" => Some(ChordInfo(3, Minor7, 3))
    case "546" => Some(ChordInfo(1, Dominant7, 2))
    case "547" => Some(ChordInfo(1, Major7, 2))
    case "574" => Some(ChordInfo(1, Major7, 2))
    case "587" => Some(ChordInfo(2, Major7, 3))
    case "596" => Some(ChordInfo(2, HalfDiminished7, 3))
    case "597" => Some(ChordInfo(2, Minor7, 3))
    case "5105" => Some(ChordInfo(1, Minor7, 2))
    case "5106" => Some(ChordInfo(1, Dominant7, 2))
    case "5115" => Some(ChordInfo(1, Major7, 2))
    case _ => None
  }

  function IntervalStringsAsWrittenFrom6(s: string): Option<ChordInfo>
  {
    match s
    case "63" => Some(ChordInfo(1, Diminished, 2))
    case "64" => Some(ChordInfo(1, Flat5, 2))
    case "69" => Some(ChordInfo(0, Diminished, 0))
    case "610" => Some(ChordInfo(0, Flat5, 0))
    case "62" => Some(ChordInfo(2, Dominant7, 1))
    case "68" => Some(ChordInfo(2, Dominant7, 3))
    case "626" => Some(ChordInfo(2, Dominant7Flat5, 1))
    case "627" => Some(ChordInfo(2, Dominant7, 1))
    case "635" => Some(ChordInfo(3, Dominant7, 3))
    case "636" => Some(ChordInfo(0, Diminished7, 0))
    case "637" => Some(ChordInfo(1, HalfDiminished7, 2))
    case "645" => Some(ChordInfo(0, HalfDiminished7, 0))
    case "646" => Some(ChordInfo(0, Dominant7Flat5, 0))
    case "686" => Some(ChordInfo(3, Dominant7Flat5, 1))
    case "687" => Some(ChordInfo(2, Dominant7, 3))
    case "695" => Some(ChordInfo(3, Dominant7, 1))
    case "696" => Some(ChordInfo(0, Diminished7, 0))
    case "697" => Some(ChordInfo(0, HalfDiminished7, 0))
    case "6105" => Some(ChordInfo(1, HalfDiminished7, 2))
    case "6106" => Some(ChordInfo(0, Dominant7Flat5, 0))
    case _ => None
  }

  function IntervalStringsAsWrittenFrom7(s: string): Option<ChordInfo>
  {
    match s
    case "7" => Some(ChordInfo(0, Add5, 0))
    case "78" => Some(ChordInfo(0, Minor, 0))
    case "79" => Some(ChordInfo(0, Major, 0))
    case "71" => Some(ChordInfo(2, Major7, 1))
    case "72" => Some(ChordInfo(2, Minor7, 1))
    case "74" => Some(ChordInfo(0, Add5Major7, 0))
    case "711" => Some(ChordInfo(1, Add5Major7, 0))
    case "714" => Some(ChordInfo(2, Major7, 1))
    case "717" => Some(ChordInfo(2, Major7, 1))
    case "726" => Some(ChordInfo(2, HalfDiminished7, 1))
    case "727" => Some(ChordInfo(2, Minor7, 1))
    case "735" => Some(ChordInfo(0, Minor7, 0))
    case "736" => Some(ChordInfo(0, Dominant7, 0))
    case "744" => Some(ChordInfo(0, MinorMajor7, 0))
    case "745" => Some(ChordInfo(0, Major7, 0))
    case "785" => Some(ChordInfo(3, Major7, 1))
    case "786" => Some(ChordInfo(3, HalfDiminished7, 1))
    case "787" => Some(ChordInfo(0, Minor7, 0))
    case "788" => Some(ChordInfo(0, MinorMajor7, 0))
    case "795" => Some(ChordInfo(3, Minor7, 1))
    case "796" => Some(ChordInfo(0, Dominant7, 0))
    case "797" => Some(ChordInfo(0, Major7, 0))
    case _ => None
  }

  function IntervalStringsAsWrittenFrom8(s: string): Option<ChordInfo>
  {
    match s
    case "8" => Some(ChordInfo(1, Major, 1))
    case "86" => Some(ChordInfo(1, Flat5, 1))
    case "87" => Some(ChordInfo(1, Major, 1))
    case "88" => Some(ChordInfo(1, Augmented, 1))
    case "89" => Some(ChordInfo(2, Minor, 2))
    case "810" => Some(ChordInfo(1, Dominant7, 1))
    case "811" => Some(ChordInfo(1, Major7, 1))
    case "817" => Some(ChordInfo(2, MinorMajor7, 1))
    case "853" => Some(ChordInfo(2, MinorMajor7, 3))
    case "854" => Some(ChordInfo(2, Major7, 3))
    case "863" => Some(ChordInfo(2, HalfDiminished7, 3))
    case "864" => Some(ChordInfo(1, Dominant7Flat5, 1))
    case "872" => Some(ChordInfo(3, Minor7, 2))
    case "873" => Some(ChordInfo(1, Dominant7, 1))
    case "874" => Some(ChordInfo(1, Major7, 1))
    case "881" => Some(ChordInfo(3, MinorMajor7, 2))
    case "885" => Some(ChordInfo(3, MinorMajor7, 1))
    case "889" => Some(ChordInfo(3, MinorMajor7, 3))
    case "891" => Some(ChordInfo(2, MinorMajor7, 2))
    case "898" => Some(ChordInfo(3, Major7, 3))
    case "8108" => Some(ChordInfo(1, Dominant7Flat5, 1))
    case "8109" => Some(ChordInfo(1, Dominant7, 1))
    case "8118" => Some(ChordInfo(1, Major7, 1))
    case "8910" => Some(ChordInfo(2, Minor7, 2))
    case _ => None
  }

  function IntervalStringsAsWrittenFrom9(s: string): Option<ChordInfo>
  {
    match s
    case "9" => Some(ChordInfo(2, Minor, 1))
    case "96" => Some(ChordInfo(1, Diminished, 1))
    case "97" => Some(ChordInfo(1, Minor, 1))
    case "98" => Some(ChordInfo(2, Major, 2))
    case "99" => Some(ChordInfo(2, Diminished, 2))
    case "910" => Some(ChordInfo(1, Minor7, 1))
    case "953" => Some(ChordInfo(2, Minor7, 3))
    case "954" => Some(ChordInfo(2, Dominant7, 3))
    case "958" => Some(ChordInfo(3, Dominant7, 3))
    case "962" => Some(ChordInfo(3, Dominant7, 2))
    case "963" => Some(ChordInfo(0, Diminished7, 0))
    case "964" => Some(ChordInfo(1, HalfDiminished7, 1))
    case "971" => Some(ChordInfo(3, Major7, 2))
    case "972" => Some(ChordInfo(3, HalfDiminished7, 2))
    case "973" => Some(ChordInfo(1, Minor7, 1))
    case "974" => Some(ChordInfo(1, MinorMajor7, 1))
    case "989" => Some(ChordInfo(3, Minor7, 3))
    case "998" => Some(ChordInfo(3, Dominant7, 3))
    case "999" => Some(ChordInfo(0, Diminished7, 0))
    case "9108" => Some(ChordInfo(1, HalfDiminished7, 1))
    case "9109" => Some(ChordInfo(1, Minor7, 1))
    case "9118" => Some(ChordInfo(1, MinorMajor7, 1))
    case "9311" => Some(ChordInfo(2, Major7, 2))
    case "9810" => Some(ChordInfo(2, Dominant7, 2))
    case "9910" => Some(ChordInfo(2, HalfDiminished7, 2))
    case _ => None
  }

  /** The table the rest of the model uses. The entry for "9" names root index 2,
      but a chord with that string has only two distinct notes; the evidently
      intended record is the first inversion of the minor chord on the upper note. */
  function IntervalStrings(s: string): Option<ChordInfo>
  {
    if s == "9" then Some(ChordInfo(1, Minor, 1)) else IntervalStringsAsWritten(s)
  }

  /** The record a string the table does not list maps to (the defaultdict factory). */
  const Unknown := ChordInfo(0, UnknownQuality, 0)

  /** What every entry satisfies: an inversion the numeral figures can index,
      a real quality, and a root index that names one of the distinct notes. */
  predicate EntryOk(s: string, r: ChordInfo)
  {
    s != []
    && 0 <= r.position <= 3
    && (IsTriadQuality(r.quality) ==> r.position <= 2)
    && r.quality != UnknownQuality
    && RootFits(s, r.rootIndex)
  }

  lemma EntriesFrom1(s: string)
    ensures IntervalStringsAsWrittenFrom1(s).Some? ==> EntryOk(s, IntervalStringsAsWrittenFrom1(s).value)
  {
  }

  lemma EntriesFrom2(s: string)
    ensures IntervalStringsAsWrittenFrom2(s).Some? ==> EntryOk(s, IntervalStringsAsWrittenFrom2(s).value)
  {
  }

  lemma EntriesFrom3(s: string)
    ensures IntervalStringsAsWrittenFrom3(s).Some? ==> EntryOk(s, IntervalStringsAsWrittenFrom3(s).value)
  {
  }

  lemma EntriesFrom4(s: string)
    ensures IntervalStringsAsWrittenFrom4(s).Some? ==> EntryOk(s, IntervalStringsAsWrittenFrom4(s).value)
  {
  }

  lemma EntriesFrom5(s: string)
    ensures IntervalStringsAsWrittenFrom5(s).Some? ==> EntryOk(s, IntervalStringsAsWrittenFrom5(s).value)
  {
  }

  lemma EntriesFrom6(s: string)
    ensures IntervalStringsAsWrittenFrom6(s).Some? ==> EntryOk(s, IntervalStringsAsWrittenFrom6(s).value)
  {
  }

  lemma EntriesFrom7(s: string)
    ensures IntervalStringsAsWrittenFrom7(s).Some? ==> EntryOk(s, IntervalStringsAsWrittenFrom7(s).value)
  {
  }

  lemma EntriesFrom8(s: string)
    ensures IntervalStringsAsWrittenFrom8(s).Some? ==> EntryOk(s, IntervalStringsAsWrittenFrom8(s).value)
  {
  }

  lemma EntriesFrom9(s: string)
    requires s != "9"
    ensures IntervalStringsAsWrittenFrom9(s).Some? ==> EntryOk(s, IntervalStringsAsWrittenFrom9(s).value)
  {
  }

  /** Every entry of the table satisfies EntryOk. */
  lemma EntryFacts(s: string)
    ensures IntervalStrings(s).Some? ==> EntryOk(s, IntervalStrings(s).value)
  {
    if s == [] { }
    else if s == "9" { }
    else if s[0] == '1' { EntriesFrom1(s); }
    else if s[0] == '2' { EntriesFrom2(s); }
    else if s[0] == '3' { EntriesFrom3(s); }
    else if s[0] == '4' { EntriesFrom4(s); }
    else if s[0] == '5' { EntriesFrom5(s); }
    else if s[0] == '6' { EntriesFrom6(s); }
    else if s[0] == '7' { EntriesFrom7(s); }
    else if s[0] == '8' { EntriesFrom8(s); }
    else if s[0] == '9' { EntriesFrom9(s); }
  }


  /** get_chord_for_intervals: the table's record, or the unknown record. */
  function ChordForIntervals(s: string): (r: ChordInfo)
    ensures r.quality == UnknownQuality <==> IntervalStrings(s).None?
    ensures IntervalStrings(s).Some? ==> r == IntervalStrings(s).value
    ensures 0 <= r.position <= 3
    ensures IsTriadQuality(r.quality) ==> r.position <= 2
    ensures r.rootIndex <= MinTokens(s)
  {
    EntryFacts(s);
    match IntervalStrings(s)
      case Some(info) => RootFitsTokens(s, info.rootIndex); info
      case None => Unknown
  }

  /** The entry as written names a third distinct note where a "9" chord has two. */
  lemma NineAsWritten()
    ensures IntervalStringsAsWritten("9").Some?
    ensures IntervalStringsAsWritten("9").value.rootIndex == 2
    ensures MinTokens("9") == 1
  {
  }
}
