/**
  `getVariantClass` of lib/variant-class.ts: the class string of a named
  colour variant, with the silver variant as the fallback.
*/
module VariantClass {
  import opened Wrappers

  const Silver := "bg-gray-100 text-gray-900 border-gray-200"

  /** The nine variant names, in the order the table lists them. */
  const Names := ["daisy", "aqua", "lilac", "cherry", "amber", "silver", "lime", "frosted", "minimal"]

  /** The table `variantClasses`: the entry for `variant`, if it has one. */
  function Entry(variant: string): (r: Option<string>)
    ensures r.Some? ==> r.value != ""
  {
    match variant
    case "daisy" => Some("bg-pink-100 text-pink-900 border-pink-200")
    case "aqua" => Some("bg-cyan-100 text-cyan-900 border-cyan-200")
    case "lilac" => Some("bg-purple-100 text-purple-900 border-purple-200")
    case "cherry" => Some("bg-red-100 text-red-900 border-red-200")
    case "amber" => Some("bg-amber-100 text-amber-900 border-amber-200")
    case "silver" => Some(Silver)
    case "lime" => Some("bg-lime-100 text-lime-900 border-lime-200")
    case "frosted" => Some("bg-white/80 text-gray-900 border-gray-200 backdrop-blur-sm")
    case "minimal" => Some("bg-transparent text-gray-900 border-gray-200")
    case _ => None
  }

  /**
    `variantClasses[variant] || variantClasses.silver`. Every entry is a
    non-empty string, so the fallback is taken exactly for names the table
    does not list.
  */
  function GetVariantClass(variant: string): (r: string)
    ensures Entry(variant).Some? ==> r == Entry(variant).value
    ensures Entry(variant).None? ==> r == Silver
    ensures r != ""
  {
    match Entry(variant)
    case Some(c) => if c != "" then c else Silver
    case None => Silver
  }

  /** The table lists exactly the nine names. */
  lemma EntryNames(variant: string)
    ensures Entry(variant).Some? <==> variant in Names
  {
  }

  /** Every result is one of the table's classes. */
  lemma ResultInTable(variant: string)
    ensures exists i :: 0 <= i < |Names| && GetVariantClass(variant) == Entry(Names[i]).value
  {
    if variant !in Names {
      assert Names[5] == "silver";
    } else {
      var i :| 0 <= i < |Names| && Names[i] == variant;
    }
  }

  /** Lookup is case-sensitive: a capitalised name reaches silver through the fallback, not the table. */
  lemma CaseSensitive()
    ensures Entry("Silver").None? && GetVariantClass("Silver") == Silver
    ensures Entry("Daisy").None? && GetVariantClass("Daisy") == Silver
  {
    EntryNames("Silver");
    EntryNames("Daisy");
  }

  /** Unlisted names such as the empty string and `primary` fall back to silver. */
  lemma Fallbacks()
    ensures GetVariantClass("") == Silver
    ensures GetVariantClass("primary") == Silver
  {
    EntryNames("");
    EntryNames("primary");
  }
}
