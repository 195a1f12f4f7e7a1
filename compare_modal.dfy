/**
 * The comparison dialog: the ids ticked so far, toggled one at a time; the
 * documents offered, which never include the source; and the guard that
 * sends no request for an empty selection.
 */
module CompareModal {
  import opened Wrappers
  import opened DocumentModel

  /** `s.filter(x => x !== id)`. */
  function Without(s: seq<DocId>, id: DocId): (r: seq<DocId>)
    ensures |r| <= |s|
    decreases |s|
  {
    if s == [] then []
    else Without(s[..|s| - 1], id) + (if s[|s| - 1] == id then [] else [s[|s| - 1]])
  }

  /** Removing an id keeps every other id and only those. */
  lemma {:induction false} WithoutMembers(s: seq<DocId>, id: DocId)
    ensures forall x :: x in Without(s, id) <==> x in s && x != id
    decreases |s|
  {
    if s != [] {
      WithoutMembers(s[..|s| - 1], id);
      assert s == s[..|s| - 1] + [s[|s| - 1]];
    }
  }

  /** Removing an id works piece by piece, so the remaining ids keep their order. */
  lemma {:induction false} WithoutConcat(a: seq<DocId>, b: seq<DocId>, id: DocId)
    ensures Without(a + b, id) == Without(a, id) + Without(b, id)
    decreases |b|
  {
    if b == [] {
      assert a + b == a;
    } else {
      assert (a + b)[..|a + b| - 1] == a + b[..|b| - 1];
      WithoutConcat(a, b[..|b| - 1], id);
    }
  }

  /** Removing an id that is not there changes nothing. */
  lemma {:induction false} WithoutAbsent(s: seq<DocId>, id: DocId)
    requires id !in s
    ensures Without(s, id) == s
    decreases |s|
  {
    if s != [] {
      WithoutAbsent(s[..|s| - 1], id);
      assert s == s[..|s| - 1] + [s[|s| - 1]];
    }
  }

  /** `handleSelect`'s new list: the id removed when ticked, appended otherwise. */
  function Toggle(selected: seq<DocId>, id: DocId): (r: seq<DocId>)
  {
    if id in selected then Without(selected, id) else selected + [id]
  }

  /** After a toggle the id is ticked exactly when it was not, and every other
      id is ticked exactly as before. */
  lemma ToggleMembers(selected: seq<DocId>, id: DocId)
    ensures id in Toggle(selected, id) <==> id !in selected
    ensures forall x :: x != id ==> (x in Toggle(selected, id) <==> x in selected)
  {
    WithoutMembers(selected, id);
  }

  /** Ticking an id that was not ticked and then unticking it restores the list. */
  lemma ToggleTwiceRestores(selected: seq<DocId>, id: DocId)
    requires id !in selected
    ensures Toggle(Toggle(selected, id), id) == selected
  {
    WithoutConcat(selected, [id], id);
    WithoutAbsent(selected, id);
    assert Without([id], id) == Without([], id) + [];
  }

  predicate Distinct(s: seq<DocId>) {
    forall i, j :: 0 <= i < j < |s| ==> s[i] != s[j]
  }

  lemma DistinctSnoc(a: seq<DocId>, x: DocId)
    requires Distinct(a) && x !in a
    ensures Distinct(a + [x])
  {
    forall i, j | 0 <= i < j < |a| + 1
      ensures (a + [x])[i] != (a + [x])[j]
    {
      if j == |a| {
        assert (a + [x])[i] == a[i];
      }
    }
  }

  /** Removing an id from a list without duplicates leaves one without duplicates. */
  lemma {:induction false} WithoutDistinct(s: seq<DocId>, id: DocId)
    requires Distinct(s)
    ensures Distinct(Without(s, id))
    decreases |s|
  {
    if s != [] {
      var front := s[..|s| - 1];
      var last := s[|s| - 1];
      WithoutDistinct(front, id);
      if last != id {
        WithoutMembers(front, id);
        forall k | 0 <= k < |front|
          ensures front[k] != last
        {
          assert front[k] == s[k];
        }
        DistinctSnoc(Without(front, id), last);
      }
    }
  }

  /** A selection without duplicates stays without duplicates. */
  lemma ToggleKeepsDistinct(selected: seq<DocId>, id: DocId)
    requires Distinct(selected)
    ensures Distinct(Toggle(selected, id))
  {
    if id in selected {
      WithoutDistinct(selected, id);
    } else {
      DistinctSnoc(selected, id);
    }
  }

  /** `allDocs.filter(doc => doc._id !== sourceDoc._id)`. */
  function TargetDocs(all: seq<Document>, sourceId: DocId): (r: seq<Document>)
    ensures |r| <= |all|
    decreases |all|
  {
    if all == [] then []
    else TargetDocs(all[..|all| - 1], sourceId) + (if all[|all| - 1].id == sourceId then [] else [all[|all| - 1]])
  }

  /** The documents offered are the others, every one of them. */
  lemma {:induction false} TargetDocsMembers(all: seq<Document>, sourceId: DocId)
    ensures forall d :: d in TargetDocs(all, sourceId) <==> d in all && d.id != sourceId
    decreases |all|
  {
    if all != [] {
      TargetDocsMembers(all[..|all| - 1], sourceId);
      assert all == all[..|all| - 1] + [all[|all| - 1]];
    }
  }

  /** The dialog's state: the source it was opened for and the ticked ids. */
  class CompareSelection {
    const sourceId: DocId
    var selectedIds: seq<DocId>

    constructor (source: DocId)
      ensures sourceId == source && selectedIds == []
    {
      sourceId := source;
      selectedIds := [];
    }

    /** `handleSelect`. */
    method HandleSelect(id: DocId)
      modifies this
      ensures selectedIds == Toggle(old(selectedIds), id)
    {
      if id in selectedIds {
        selectedIds := Without(selectedIds, id);
      } else {
        selectedIds := selectedIds + [id];
      }
    }

    /** `handleRunComparison`: the request it sends (the source and the ticked
        ids), or none for an empty selection. */
    method HandleRunComparison() returns (request: Option<(DocId, seq<DocId>)>)
      ensures request.None? <==> selectedIds == []
      ensures request.Some? ==> request.value == (sourceId, selectedIds)
    {
      if |selectedIds| == 0 {
        return None;
      }
      return Some((sourceId, selectedIds));
    }
  }
}
