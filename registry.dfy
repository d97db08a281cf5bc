/** The checkmark registry: the set of target spellings the user has marked
    (script.js:4, 30-35). Storage in localStorage is outside the model. */
module Registry {
  /** The registry after `toggleCheck(w)`: `w` changes membership, every
      other key keeps its own. */
  function Toggled(checked: set<string>, w: string): (r: set<string>)
    ensures (w in r) <==> (w !in checked)
    ensures forall x :: x != w ==> (x in r <==> x in checked)
  {
    if w in checked then checked - {w} else checked + {w}
  }

  /** Toggling the same key twice restores the registry. */
  lemma ToggleTwice(checked: set<string>, w: string)
    ensures Toggled(Toggled(checked, w), w) == checked
  {
  }
}
