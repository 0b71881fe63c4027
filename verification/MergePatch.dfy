/** Merge patches (RFC 7396, section 2) on field maps. */
module MergePatch {
  import opened Objects
  import opened Wrappers

  /** `None` is the JSON null that removes a field. */
  type Patch<K(==)> = map<K, Option<string>>

  datatype AppPatch = AppPatch(labels: Patch<Label>, annotations: Patch<Annotation>, spec: Patch<SpecField>)

  function Field<K>(m: map<K, string>, k: K): Option<string> {
    if k in m then Some(m[k]) else None
  }

  /** The patch a client computes to turn `from` into `to`. */
  function Diff<K>(from: map<K, string>, to: map<K, string>): Patch<K> {
    map k | k in from.Keys + to.Keys && Field(from, k) != Field(to, k) :: Field(to, k)
  }

  /** What a server makes of `target`. */
  function Merge<K>(target: map<K, string>, p: Patch<K>): map<K, string> {
    map k | k in target.Keys + p.Keys && (k in p ==> p[k].Some?) :: if k in p then p[k].value else target[k]
  }

  function DiffApp(from: App, to: App): AppPatch {
    AppPatch(Diff(from.labels, to.labels), Diff(from.annotations, to.annotations), Diff(from.spec, to.spec))
  }

  function MergeApp(target: App, p: AppPatch): App {
    target.(labels := Merge(target.labels, p.labels),
            annotations := Merge(target.annotations, p.annotations),
            spec := Merge(target.spec, p.spec))
  }

  function Merged<K>(fetched: map<K, string>, wanted: map<K, string>, current: map<K, string>, k: K): Option<string> {
    if Field(fetched, k) != Field(wanted, k) then Field(wanted, k) else Field(current, k)
  }

  /** Where the two compared objects differ the patched object agrees with the wanted one; everywhere
      else it keeps what the server has, whatever happened to it in the meantime. */
  lemma MergeKeepsConcurrentEdits<K>(fetched: map<K, string>, wanted: map<K, string>, current: map<K, string>, k: K)
    ensures Field(Merge(current, Diff(fetched, wanted)), k) == Merged(fetched, wanted, current, k)
  {
  }

  /** Without a concurrent edit the patch produces the wanted object, and an object that already is
      the wanted one stays so whatever was fetched before. */
  lemma MergeYieldsWanted<K>(fetched: map<K, string>, wanted: map<K, string>, current: map<K, string>)
    requires current == fetched || current == wanted
    ensures Merge(current, Diff(fetched, wanted)) == wanted
  {
  }
}
