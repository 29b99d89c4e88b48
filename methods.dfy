/**
  The `calculationMethods` table and the two ways the bot labels a method id:
  fetch results fall back to `Method N`, the `calculation-methods` and
  `bot-info` commands fall back to `Custom`. The id is the configured
  string (`CALCULATION_METHOD`), and JavaScript looks it up as a property
  name, so `"2"` is known while `"02"` is not.
*/
module CalculationMethods {
  import opened Wrappers
  import opened Text

  const Table: map<string, string> := map[
    "1" := "University of Islamic Sciences, Karachi",
    "2" := "Islamic Society of North America (ISNA)",
    "3" := "Muslim World League (MWL)",
    "4" := "Umm al-Qura, Makkah",
    "5" := "Egyptian General Authority of Survey",
    "7" := "Institute of Geophysics, University of Tehran",
    "8" := "Gulf Region",
    "9" := "Kuwait",
    "10" := "Qatar",
    "11" := "Majlis Ugama Islam Singapura, Singapore",
    "12" := "Union Organization islamic de France",
    "13" := "Diyanet İşleri Başkanlığı, Turkey",
    "14" := "Spiritual Administration of Muslims of Russia"
  ]

  /** `calculationMethods[id]`: the table entry, or `undefined`. */
  function Lookup(id: string): (name: Option<string>)
    ensures name.Some? <==> id in Table
    ensures name.Some? ==> name.value == Table[id]
  {
    if id in Table then Some(Table[id]) else None
  }

  /** The label in a fetch result: `calculationMethods[method] || \`Method ${method}\``. */
  function FetchLabel(id: string): (shown: string)
    ensures id in Table ==> shown == Table[id]
    ensures id !in Table ==> |shown| == 7 + |id| && shown[..7] == "Method " && shown[7..] == id
  {
    match Lookup(id)
    case Some(name) => name
    case None => "Method " + id
  }

  /** The label in command replies: `calculationMethods[CALCULATION_METHOD] || "Custom"`. */
  function CommandLabel(id: string): (shown: string)
    ensures id in Table ==> shown == Table[id]
    ensures shown == "Custom" <==> id !in Table
  {
    match Lookup(id)
    case Some(name) => name
    case None => "Custom"
  }

  /** The canonical decimal texts of the small numbers the table uses. */
  lemma SmallDecimals()
    ensures NatToString(1) == "1" && NatToString(2) == "2" && NatToString(3) == "3"
    ensures NatToString(4) == "4" && NatToString(5) == "5" && NatToString(6) == "6"
    ensures NatToString(7) == "7" && NatToString(8) == "8" && NatToString(9) == "9"
    ensures NatToString(10) == "10" && NatToString(11) == "11" && NatToString(12) == "12"
    ensures NatToString(13) == "13" && NatToString(14) == "14"
  {
  }

  /**
    The table knows exactly the decimal ids 1 to 14 except 6: thirteen
    methods, each under the canonical text of its number.
  */
  lemma KnownIds(id: string)
    ensures id in Table <==> exists n :: 1 <= n <= 14 && n != 6 && id == NatToString(n)
  {
    SmallDecimals();
    if id in Table {
      var n :| n in {1, 2, 3, 4, 5, 7, 8, 9, 10, 11, 12, 13, 14} && id == NatToString(n);
    }
    if exists n :: 1 <= n <= 14 && n != 6 && id == NatToString(n) {
      var n :| 1 <= n <= 14 && n != 6 && id == NatToString(n);
      assert n in {1, 2, 3, 4, 5, 7, 8, 9, 10, 11, 12, 13, 14};
    }
  }

  /** Id 6 has no entry: fetch results call it `Method 6`, commands call it `Custom`. */
  lemma IdSix()
    ensures "6" !in Table && FetchLabel("6") == "Method 6" && CommandLabel("6") == "Custom"
  {
  }

  /**
    An unknown id is labelled `Method <id>` in fetch results, so the id can be
    read back from the label, and `Custom` in command replies; the two
    labellings agree on every known id.
  */
  lemma UnknownIdLabels(id: string)
    requires id !in Table
    ensures FetchLabel(id)[..7] == "Method " && FetchLabel(id)[7..] == id
    ensures CommandLabel(id) == "Custom"
  {
  }

  lemma LabelsAgreeOnKnownIds(id: string)
    requires id in Table
    ensures FetchLabel(id) == CommandLabel(id) == Table[id]
  {
  }
}
