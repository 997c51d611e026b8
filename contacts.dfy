/**
 * The emergency-contact list of MainActivity: an ordered list of at most four
 * phone-number strings, the text field they are typed into, and the
 * preference store that keeps the list between runs as a set of strings.
 */
module Contacts {
  import opened Wrappers

  /** The list never holds more than this many numbers. */
  const MaxContacts: nat := 4
  /** A typed number is accepted only when its length, in UTF-16 code units, is exactly this. */
  const NumberLength: nat := 10
  /** Key under which the list is saved in the preference file. */
  const ContactsKey: string := "contacts"

  /** The set of numbers occurring in a list (Kotlin's `toSet()`). */
  function ElemSet(xs: seq<string>): set<string>
  {
    set x | x in xs
  }

  predicate Distinct(xs: seq<string>)
  {
    forall i, j :: 0 <= i < j < |xs| ==> xs[i] != xs[j]
  }

  /** `r` lists every element of `s` exactly once, in some order. */
  predicate IsEnumeration(r: seq<string>, s: set<string>)
  {
    Distinct(r) && ElemSet(r) == s
  }

  // ---------------------------------------------------------------------
  // The list and the text field as values

  /** What the contacts screen holds: the list and the text being typed. */
  datatype Screen = Screen(contacts: seq<string>, input: string)

  /**
   * Kotlin's `String.length`: the number of UTF-16 code units, so a
   * character outside the Basic Multilingual Plane counts twice.
   */
  function Utf16Length(s: string): (n: nat)
    ensures |s| <= n <= 2 * |s|
    ensures (forall i :: 0 <= i < |s| ==> s[i] as int < 0x1_0000) ==> n == |s|
    ensures (forall i :: 0 <= i < |s| ==> s[i] as int >= 0x1_0000) ==> n == 2 * |s|
    decreases |s|
  {
    if s == [] then 0 else (if s[0] as int < 0x1_0000 then 1 else 2) + Utf16Length(s[1..])
  }

  /**
   * The UTF-16 length of a concatenation is the sum of the lengths; with the
   * single-character cases above this fixes the length of every string.
   */
  lemma {:induction false} Utf16Append(a: string, b: string)
    ensures Utf16Length(a + b) == Utf16Length(a) + Utf16Length(b)
    decreases |a|
  {
    if a == [] {
      assert a + b == b;
    } else {
      assert (a + b)[0] == a[0] && (a + b)[1..] == a[1..] + b;
      Utf16Append(a[1..], b);
    }
  }

  /** The guard of the "Add Number" button. */
  predicate CanAdd(contacts: seq<string>, input: string)
  {
    Utf16Length(input) == NumberLength && |contacts| < MaxContacts
  }

  /** Pressing "Add Number": append the typed text and clear the field, or do nothing. */
  function AddPressed(s: Screen): (r: Screen)
    ensures CanAdd(s.contacts, s.input) <==> |r.contacts| == |s.contacts| + 1
    ensures CanAdd(s.contacts, s.input) ==>
      r.contacts[..|s.contacts|] == s.contacts && r.contacts[|s.contacts|] == s.input && r.input == ""
    ensures !CanAdd(s.contacts, s.input) ==> r == s
    ensures |s.contacts| <= MaxContacts ==> |r.contacts| <= MaxContacts
  {
    if CanAdd(s.contacts, s.input) then Screen(s.contacts + [s.input], "") else s
  }

  /** Kotlin's `removeAt(index)` on the list. */
  function RemoveAt(contacts: seq<string>, index: nat): (r: seq<string>)
    requires index < |contacts|
    ensures |r| == |contacts| - 1
    ensures forall j :: 0 <= j < index ==> r[j] == contacts[j]
    ensures forall j :: index <= j < |r| ==> r[j] == contacts[j + 1]
    ensures multiset(r) + multiset{contacts[index]} == multiset(contacts)
  {
    assert contacts == contacts[..index] + [contacts[index]] + contacts[index + 1..];
    contacts[..index] + contacts[index + 1..]
  }

  /** What the user can do on the contacts screen. */
  datatype Event = Edit(text: string) | Add | Delete(index: nat)

  /**
   * One user action. A delete whose index is not in the list is the
   * IndexOutOfBoundsException that `removeAt` throws: None.
   */
  function Apply(s: Screen, e: Event): (r: Option<Screen>)
    ensures r.None? <==> e.Delete? && e.index >= |s.contacts|
    ensures e.Edit? ==> r == Some(Screen(s.contacts, e.text))
    ensures e.Add? ==> r == Some(AddPressed(s))
    ensures e.Delete? && e.index < |s.contacts| ==> r == Some(Screen(RemoveAt(s.contacts, e.index), s.input))
    ensures r.Some? && |s.contacts| <= MaxContacts ==> |r.value.contacts| <= MaxContacts
  {
    match e
    case Edit(text) => Some(Screen(s.contacts, text))
    case Add => Some(AddPressed(s))
    case Delete(index) =>
      if index < |s.contacts| then Some(Screen(RemoveAt(s.contacts, index), s.input)) else None
  }

  /** A sequence of user actions, applied in order; None once one of them throws. */
  function Replay(s: Screen, events: seq<Event>): Option<Screen>
    decreases |events|
  {
    if events == [] then Some(s)
    else
      match Apply(s, events[0])
      case None => None
      case Some(t) => Replay(t, events[1..])
  }

  /** No sequence of edits, adds and deletes takes the list past four entries. */
  lemma {:induction false} BoundPreserved(s: Screen, events: seq<Event>)
    requires |s.contacts| <= MaxContacts
    ensures Replay(s, events).Some? ==> |Replay(s, events).value.contacts| <= MaxContacts
    decreases |events|
  {
    if events != [] {
      match Apply(s, events[0])
      case None =>
      case Some(t) =>
        assert |t.contacts| <= MaxContacts;
        BoundPreserved(t, events[1..]);
    }
  }

  // ---------------------------------------------------------------------
  // Saving as a set and reading back

  /** A list never has more distinct elements than entries, and as many exactly when it has no duplicates. */
  lemma {:induction false} DistinctCard(xs: seq<string>)
    ensures |ElemSet(xs)| <= |xs|
    ensures |ElemSet(xs)| == |xs| <==> Distinct(xs)
  {
    if xs != [] {
      var tail := xs[1..];
      DistinctCard(tail);
      assert ElemSet(xs) == {xs[0]} + ElemSet(tail);
      if xs[0] in tail {
        assert ElemSet(xs) == ElemSet(tail);
        var k :| 0 <= k < |tail| && tail[k] == xs[0];
        assert xs[0] == xs[k + 1];
      } else {
        assert xs[0] !in ElemSet(tail);
        assert |ElemSet(xs)| == |ElemSet(tail)| + 1;
        if Distinct(tail) {
          forall i, j | 0 <= i < j < |xs| ensures xs[i] != xs[j] {
            if i > 0 { assert xs[i] == tail[i - 1] && xs[j] == tail[j - 1]; }
            else { assert xs[j] == tail[j - 1]; }
          }
        }
        if Distinct(xs) {
          forall i, j | 0 <= i < j < |tail| ensures tail[i] != tail[j] {
            assert tail[i] == xs[i + 1] && tail[j] == xs[j + 1];
          }
        }
      }
    }
  }

  /** In a list without duplicates every present element occurs exactly once. */
  lemma {:induction false} DistinctMultiplicity(xs: seq<string>, x: string)
    requires Distinct(xs)
    ensures multiset(xs)[x] == if x in xs then 1 else 0
  {
    if xs != [] {
      var tail := xs[1..];
      assert xs == [xs[0]] + tail;
      assert Distinct(tail) by {
        forall i, j | 0 <= i < j < |tail| ensures tail[i] != tail[j] {
          assert tail[i] == xs[i + 1] && tail[j] == xs[j + 1];
        }
      }
      DistinctMultiplicity(tail, x);
      assert xs[0] !in tail by {
        forall k | 0 <= k < |tail| ensures tail[k] != xs[0] {
          assert tail[k] == xs[k + 1];
        }
      }
    }
  }

  /**
   * Saving a list as a set and reading the set back as a list gives exactly
   * the distinct numbers that were saved; the length is kept exactly when the
   * saved list had no duplicates, and then the two lists are permutations of
   * one another. Nothing is said about order.
   */
  lemma SaveLoadRoundTrip(saved: seq<string>, loaded: seq<string>)
    requires IsEnumeration(loaded, ElemSet(saved))
    ensures forall x :: x in loaded <==> x in saved
    ensures Distinct(loaded)
    ensures |loaded| <= |saved|
    ensures |loaded| == |saved| <==> Distinct(saved)
    ensures Distinct(saved) ==> multiset(loaded) == multiset(saved)
  {
    assert forall x :: x in loaded <==> x in ElemSet(loaded);
    DistinctCard(loaded);
    DistinctCard(saved);
    if Distinct(saved) {
      forall x ensures multiset(loaded)[x] == multiset(saved)[x] {
        DistinctMultiplicity(loaded, x);
        DistinctMultiplicity(saved, x);
        assert x in loaded <==> x in saved by {
          assert x in loaded <==> x in ElemSet(loaded);
        }
      }
    }
  }

  /** Kotlin's `addAll(set)`: the elements of a set as a list, in the order the platform yields them. */
  method Enumerate(s: set<string>) returns (r: seq<string>)
    ensures IsEnumeration(r, s)
    ensures |r| == |s|
  {
    r := [];
    var rest := s;
    while rest != {}
      invariant Distinct(r)
      invariant ElemSet(r) + rest == s
      invariant ElemSet(r) !! rest
      invariant |r| + |rest| == |s|
      decreases |rest|
    {
      var x :| x in rest;
      assert x !in ElemSet(r);
      assert ElemSet(r + [x]) == ElemSet(r) + {x};
      r := r + [x];
      rest := rest - {x};
    }
  }

  // ---------------------------------------------------------------------
  // The preference store and the screen state as objects

  /** One preference file: an abstract key to string-set store. */
  class Preferences {
    var stringSets: map<string, set<string>>

    constructor ()
      ensures stringSets == map[]
    {
      stringSets := map[];
    }

    /** `edit().putStringSet(key, values).apply()` */
    method PutStringSet(key: string, values: set<string>)
      modifies this
      ensures stringSets == old(stringSets)[key := values]
    {
      stringSets := stringSets[key := values];
    }

    /** `getStringSet(key, default)` */
    method GetStringSet(key: string, default: set<string>) returns (r: set<string>)
      ensures r == if key in stringSets then stringSets[key] else default
    {
      r := if key in stringSets then stringSets[key] else default;
    }
  }

  /** The set currently saved under the contacts key (empty when nothing was saved). */
  ghost function Stored(prefs: Preferences): set<string>
    reads prefs
  {
    if ContactsKey in prefs.stringSets then prefs.stringSets[ContactsKey] else {}
  }

  /** The contact list, the text field and the preference file they are saved to. */
  class ContactBook {
    const prefs: Preferences
    var contacts: seq<string>
    var currentNumber: string

    /**
     * At most four numbers, and the saved set is the set of listed numbers
     * (nothing saved yet only while the list is empty).
     */
    ghost predicate Valid()
      reads this, prefs
    {
      |contacts| <= MaxContacts &&
      (ContactsKey in prefs.stringSets ==> prefs.stringSets[ContactsKey] == ElemSet(contacts)) &&
      (ContactsKey !in prefs.stringSets ==> contacts == [])
    }

    ghost function View(): Screen
      reads this
    {
      Screen(contacts, currentNumber)
    }

    /** `onCreate`: an empty text field and the list loaded from the preference file. */
    constructor (prefs: Preferences)
      requires |Stored(prefs)| <= MaxContacts
      ensures this.prefs == prefs && Valid()
      ensures IsEnumeration(contacts, Stored(prefs)) && currentNumber == ""
    {
      this.prefs := prefs;
      contacts := [];
      currentNumber := "";
      new;
      LoadContacts();
    }

    /** `loadContacts`: clear the list and refill it from the saved set. */
    method LoadContacts()
      requires |Stored(prefs)| <= MaxContacts
      modifies this`contacts
      ensures Valid()
      ensures IsEnumeration(contacts, Stored(prefs))
    {
      var saved := prefs.GetStringSet(ContactsKey, {});
      contacts := [];
      var loaded := Enumerate(saved);
      contacts := contacts + loaded;
    }

    /** `saveContacts`: store the list as a set. */
    method SaveContacts()
      requires |contacts| <= MaxContacts
      modifies prefs
      ensures Valid()
      ensures prefs.stringSets == old(prefs.stringSets)[ContactsKey := ElemSet(contacts)]
    {
      prefs.PutStringSet(ContactsKey, ElemSet(contacts));
    }

    /** The text field's `onValueChange`. */
    method EditNumber(text: string)
      modifies this`currentNumber
      ensures currentNumber == text
    {
      currentNumber := text;
    }

    /** The "Add Number" button: append, save and clear the field, or do nothing. */
    method AddNumber()
      requires Valid()
      modifies this`contacts, this`currentNumber, prefs
      ensures Valid()
      ensures View() == AddPressed(old(View()))
      ensures prefs.stringSets ==
        if CanAdd(old(contacts), old(currentNumber)) then old(prefs.stringSets)[ContactsKey := ElemSet(contacts)]
        else old(prefs.stringSets)
    {
      if Utf16Length(currentNumber) == NumberLength && |contacts| < MaxContacts {
        contacts := contacts + [currentNumber];
        SaveContacts();
        currentNumber := "";
      }
    }

    /** The delete icon of the card at `index`: remove that entry and save. */
    method DeleteAt(index: nat)
      requires Valid()
      requires index < |contacts|
      modifies this`contacts, prefs
      ensures Valid()
      ensures contacts == RemoveAt(old(contacts), index) && currentNumber == old(currentNumber)
      ensures prefs.stringSets == old(prefs.stringSets)[ContactsKey := ElemSet(contacts)]
    {
      contacts := contacts[..index] + contacts[index + 1..];
      SaveContacts();
    }
  }

  /**
   * Whatever a valid book has saved respects the bound, so a fresh book
   * created over the same preference file (the next launch) may load it.
   */
  lemma StoredBounded(book: ContactBook)
    requires book.Valid()
    ensures |Stored(book.prefs)| <= MaxContacts
    ensures Stored(book.prefs) == ElemSet(book.contacts)
  {
    DistinctCard(book.contacts);
  }
}
