/**
 * The asset manifest and the table of loaded assets of the MatterSound plugin.
 * A manifest entry is `{name, src}`; once loading completes, each entry carries the
 * loaded audio element and the table is searched by name.
 */
module Assets {
  import opened Optional

  /** A loaded audio element, kept opaque: the model never looks inside it. */
  datatype Handle = Handle(id: nat)

  /** One manifest entry as the caller wrote it; `None` is a missing field. */
  datatype AudioDef = AudioDef(name: Option<string>, src: Option<string>)

  /** An entry is accepted only when both `name` and `src` are present and non-empty. */
  predicate ValidDef(d: AudioDef) {
    d.name.Some? && d.name.value != "" && d.src.Some? && d.src.value != ""
  }

  /** One row of the loaded table: the definition with its loaded element attached. */
  datatype Asset = Asset(name: string, src: string, element: Handle)

  /**
   * `audios.find(a => a.name === name)`, as the index of the first row carrying `name`,
   * or `None` when no row does.
   */
  function Lookup(audios: seq<Asset>, name: string): (r: Option<nat>)
    ensures r.Some? ==> r.value < |audios| && audios[r.value].name == name
  {
    if audios == [] then None
    else if audios[0].name == name then Some(0)
    else match Lookup(audios[1..], name)
      case None => None
      case Some(k) => Some(k + 1)
  }

  /**
   * The row `Lookup` finds is the first one carrying `name`, and it finds none exactly
   * when no row carries `name`.
   */
  lemma {:induction false} LookupFirst(audios: seq<Asset>, name: string)
    ensures Lookup(audios, name).Some? ==> forall j :: 0 <= j < Lookup(audios, name).value ==> audios[j].name != name
    ensures Lookup(audios, name).None? <==> forall j :: 0 <= j < |audios| ==> audios[j].name != name
  {
    if audios != [] && audios[0].name != name {
      LookupFirst(audios[1..], name);
      forall j | 1 <= j < |audios|
        ensures audios[j] == audios[1..][j - 1]
      {
      }
    }
  }
}
