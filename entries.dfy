/**
 * The records a project configuration document (.envcli.yml) declares: one
 * entry per container image, with the command names it answers to, and the
 * scope tag that merging attaches to it.
 */
module Entries {

  /**
   * Where an entry came from. `Unscoped` is the empty scope string an entry
   * carries straight out of the loader, before any merge has tagged it.
   */
  datatype Scope = Unscoped | Project | Global

  datatype Entry = Entry(
    name: string,
    image: string,
    tag: string,
    directory: string,
    shell: string,
    commands: seq<string>,
    scope: Scope)

  /** A loaded project configuration document: its list of image entries. */
  datatype ProjectConfig = ProjectConfig(images: seq<Entry>)

  /** The zero value of a configuration document: no entries. */
  const EMPTY_CONFIG := ProjectConfig([])

  /** The entry lists commandName among its provided commands, the `provides` list (an exact, case-sensitive match). */
  predicate Provides(e: Entry, commandName: string) {
    commandName in e.commands
  }

  /** The same entries in the same order, each with its scope replaced by s. */
  function Retag(es: seq<Entry>, s: Scope): (r: seq<Entry>)
    ensures |r| == |es|
    ensures forall i :: 0 <= i < |es| ==> r[i] == es[i].(scope := s)
  {
    if es == [] then [] else [es[0].(scope := s)] + Retag(es[1..], s)
  }

  lemma RetagAppend(x: seq<Entry>, y: seq<Entry>, s: Scope)
    ensures Retag(x + y, s) == Retag(x, s) + Retag(y, s)
  {
    assert forall i :: 0 <= i < |x + y| ==> Retag(x + y, s)[i] == (Retag(x, s) + Retag(y, s))[i];
  }

  lemma RetagRetag(es: seq<Entry>, s: Scope, t: Scope)
    ensures Retag(Retag(es, s), t) == Retag(es, t)
  {
    assert forall i :: 0 <= i < |es| ==> Retag(Retag(es, s), t)[i] == Retag(es, t)[i];
  }

  /** Tagging changes no entry's provided commands. */
  lemma RetagProvides(es: seq<Entry>, s: Scope, commandName: string, i: int)
    requires 0 <= i < |es|
    ensures Provides(Retag(es, s)[i], commandName) == Provides(es[i], commandName)
  {
  }
}
