/**
 The files of exportfs/exportfs.c and the table of their qids together: the counts that
 the file tree keeps are those of the table's entries, and files that are there have the
 same path on the wire exactly if they are the same file of the host.
 */
module ExportQids {
  import opened Bytes
  import opened QidTable
  import opened ExportSpec
  import opened Export

  /** The counts of the table, as the file tree sees them. */
  function Refs(m: map<Key, Entry>): map<Key, int> { map k | k in m :: m[k].ref }

  /** What a lookup in the table makes of it: Uniqueqid. */
  ghost predicate LookedUp(m: map<Key, Entry>, n: map<Key, Entry>, k: Key, e: Entry) {
    && n == m[k := e] && e.key == k
    && (if k in m then e == m[k].(ref := m[k].ref + 1) else e.ref == 1 && !Used(m, e.uniqpath))
  }

  /** What giving up a reference makes of it: Freeqid. */
  predicate GivenUp(m: map<Key, Entry>, n: map<Key, Entry>, k: Key) {
    k in m && n == if m[k].ref > 1 then m[k := m[k].(ref := m[k].ref - 1)] else m - {k}
  }

  lemma LookupCounts(m: map<Key, Entry>, n: map<Key, Entry>, k: Key, e: Entry)
    requires LookedUp(m, n, k, e) && Unique(m)
    ensures Refs(n) == MoreQid(Refs(m), k) && Unique(n)
  {
    forall i, j | i in n && j in n && i != j ensures n[i].uniqpath != n[j].uniqpath {
      assert k !in m ==> (i in m ==> m[i].uniqpath != e.uniqpath) && (j in m ==> m[j].uniqpath != e.uniqpath);
    }
  }

  lemma GivingUpCounts(m: map<Key, Entry>, n: map<Key, Entry>, k: Key)
    requires GivenUp(m, n, k) && Unique(m)
    ensures var q := Refs(m); Refs(n) == if q[k] > 1 then q[k := q[k] - 1] else q - {k}
    ensures Unique(n) && forall j :: j in n ==> n[j].uniqpath == m[j].uniqpath
  {}

  /** A file that is there has its entry, and shares its path with just the files that
      are the same file of the host. */
  lemma PathsTellFiles(files: Files, m: map<Key, Entry>, f: ExportSpec.Id, g: ExportSpec.Id)
    requires QidsOk(files, Refs(m)) && Unique(m) && f in files && g in files
    ensures files[f].qid in m && files[g].qid in m
    ensures m[files[f].qid].uniqpath == m[files[g].qid].uniqpath <==> files[f].qid == files[g].qid
  {
    assert files[f].qid in Refs(m) && files[g].qid in Refs(m);
  }

  /** A file's entry and path stay while it is there, through any lookup and the removal
      of another file. */
  lemma PathStays(files: Files, m: map<Key, Entry>, n: map<Key, Entry>, f: ExportSpec.Id, g: ExportSpec.Id)
    requires QidsOk(files, Refs(m)) && Unique(m) && f in files && g in files && f != g
    requires GivenUp(m, n, files[f].qid)
    ensures QidsOk(files - {f}, Refs(n)) && files[g].qid in n && n[files[g].qid].uniqpath == m[files[g].qid].uniqpath
  {
    GivingUpCounts(m, n, files[f].qid);
    FreedQid(files, Refs(m), f);
    assert g in files - {f};
    assert (files - {f})[g] == files[g];
    assert files[g].qid in Refs(n);
  }
}
