/** The fixed table of categories, in display order. */
module Registry {
  import opened Wrappers

  /** A category's display identity and matching rules. */
  datatype Category = Category(name: string, icon: string, keywords: seq<string>, languages: seq<string>)

  /** One `key: category` entry of the table. */
  datatype Entry = Entry(key: string, category: Category)

  const DataScience: string := "data-science"
  const Websites: string := "websites"
  const Other: string := "other"

  /** The pseudo-key of the "show everything" filter; it is not a category. */
  const All: string := "all"

  const DataScienceKeywords: seq<string> :=
    ["visão computacional", "redes neurais convolucionais", "analise", "simulação"]
  const WebsiteKeywords: seq<string> := ["site", "apps", "web", "react", "google"]
  const OtherKeywords: seq<string> := ["jogo", "computação gráfica"]

  /** The table, in the order of its object literal. */
  const Categories: seq<Entry> := [
    Entry(DataScience, Category("Data Science", "\U{1F52C}", DataScienceKeywords, [])),
    Entry(Websites, Category("Websites e Apps", "\U{1F310}", WebsiteKeywords, [])),
    Entry(Other, Category("Outros", "\U{1F6E0}\U{FE0F}", OtherKeywords, []))
  ]

  /** The keys of a table, in order. */
  function Keys(table: seq<Entry>): (ks: seq<string>)
    ensures |ks| == |table|
    ensures forall i :: 0 <= i < |table| ==> ks[i] == table[i].key
  {
    if table == [] then [] else [table[0].key] + Keys(table[1..])
  }

  /** `table[key]`: the category stored under `key`, if any. */
  function Lookup(table: seq<Entry>, key: string): (r: Option<Category>)
    ensures r.Some? <==> key in Keys(table)
    ensures r.Some? ==> exists i :: 0 <= i < |table| && table[i] == Entry(key, r.value)
  {
    if table == [] then None
    else if table[0].key == key then Some(table[0].category)
    else
      var r := Lookup(table[1..], key);
      assert r.Some? ==> exists i :: 0 <= i < |table| && table[i] == Entry(key, r.value) by {
        if r.Some? {
          var i :| 0 <= i < |table[1..]| && table[1..][i] == Entry(key, r.value);
          assert table[i + 1] == Entry(key, r.value);
        }
      }
      r
  }

  /** `key` names an entry of the table. */
  predicate IsKey(key: string) {
    key in Keys(Categories)
  }

  /** The table has exactly the three keys, in this order, and "all" is none of them. */
  lemma CategoryKeys()
    ensures Keys(Categories) == [DataScience, Websites, Other]
    ensures forall k :: IsKey(k) <==> k == DataScience || k == Websites || k == Other
    ensures !IsKey(All)
  {
  }

  /** No category names a language: the language rule of every entry is empty. */
  lemma NoLanguageRules()
    ensures forall i :: 0 <= i < |Categories| ==> Categories[i].category.languages == []
  {
  }
}
