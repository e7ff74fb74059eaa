/**
 * The friend list of the hectade calendar: each friend's day of life and
 * hectade (block of 100 days), and the component state that the add, edit
 * and remove handlers update.
 *
 * Instants are millisecond timestamps passed in by the caller, in place of
 * `new Date(birthday)` and `new Date()`. The id `Date.now().toString()` of a
 * new friend is passed in as well. The browser's local storage entry
 * "hectade-people" is the field `persisted`, holding the list it encodes.
 */
module FriendsCalendar {

  datatype Option<T> = None | Some(value: T)

  /** A friend: an id, a name and a birthday ("YYYY-MM-DD"). */
  datatype Person = Person(id: string, name: string, birthday: string)

  /** 1000 * 60 * 60 * 24 */
  const MillisPerDay: int := 86_400_000

  // ---------------------------------------------------------------------------
  // Day of life and hectade
  // ---------------------------------------------------------------------------

  /**
   * Day of life at instant `now` of someone born at instant `birth`:
   * floor((now - birth) / one day) + 1. The result d is the unique integer
   * whose day window [(d - 1) days, d days) contains now - birth.
   * (Dafny's `/` on int is Euclidean, which agrees with `Math.floor` of the
   * quotient for a positive divisor.)
   */
  function DayNumber(birth: int, now: int): (d: int)
    ensures (d - 1) * MillisPerDay <= now - birth < d * MillisPerDay
  {
    (now - birth) / MillisPerDay + 1
  }

  /** Any d whose day window contains now - birth is the day number. */
  lemma DayNumberUnique(birth: int, now: int, d: int)
    requires (d - 1) * MillisPerDay <= now - birth < d * MillisPerDay
    ensures d == DayNumber(birth, now)
  {
  }

  /** The first 24 hours after birth are day 1. */
  lemma FirstDayIsDayOne(birth: int, now: int)
    requires birth <= now < birth + MillisPerDay
    ensures DayNumber(birth, now) == 1
  {
    DayNumberUnique(birth, now, 1);
  }

  /** Exactly one day later the day number is one higher. */
  lemma DayNumberAdvancesDaily(birth: int, now: int)
    ensures DayNumber(birth, now + MillisPerDay) == DayNumber(birth, now) + 1
  {
    var d := DayNumber(birth, now);
    DayNumberUnique(birth, now + MillisPerDay, d + 1);
  }

  /** The day number never decreases as time passes. */
  lemma DayNumberMonotone(birth: int, now0: int, now1: int)
    requires now0 <= now1
    ensures DayNumber(birth, now0) <= DayNumber(birth, now1)
  {
  }

  /** Hectade of a day number: floor(day / 100). */
  function Hectade(dayNumber: int): (h: int)
    ensures 100 * h <= dayNumber < 100 * (h + 1)
  {
    dayNumber / 100
  }

  /** Days 1 to 99 are hectade 0, and every hundredth day starts a new one. */
  lemma HectadeSteps(dayNumber: int)
    ensures 1 <= dayNumber < 100 ==> Hectade(dayNumber) == 0
    ensures Hectade(dayNumber + 100) == Hectade(dayNumber) + 1
  {
    var h := Hectade(dayNumber);
    var h1 := Hectade(dayNumber + 100);
    assert 100 * h1 <= dayNumber + 100 < 100 * (h1 + 1);
    assert h1 == h + 1;
  }

  // ---------------------------------------------------------------------------
  // List updates
  // ---------------------------------------------------------------------------

  /** `people.filter(p => p.id !== id)`. */
  function WithoutId(people: seq<Person>, id: string): (r: seq<Person>)
    ensures |r| <= |people|
    ensures forall p :: p in r <==> p in people && p.id != id
  {
    if people == [] then []
    else if people[0].id != id then [people[0]] + WithoutId(people[1..], id)
    else WithoutId(people[1..], id)
  }

  /** Filtering distributes over concatenation: relative order is kept. */
  lemma {:induction false} WithoutIdAppend(a: seq<Person>, b: seq<Person>, id: string)
    ensures WithoutId(a + b, id) == WithoutId(a, id) + WithoutId(b, id)
  {
    if a == [] {
      assert a + b == b;
    } else {
      assert (a + b)[1..] == a[1..] + b;
      WithoutIdAppend(a[1..], b, id);
    }
  }

  /** Removing an id that no entry carries changes nothing. */
  lemma {:induction false} WithoutAbsentId(people: seq<Person>, id: string)
    requires forall i :: 0 <= i < |people| ==> people[i].id != id
    ensures WithoutId(people, id) == people
  {
    if people != [] {
      WithoutAbsentId(people[1..], id);
      assert [people[0]] + people[1..] == people;
    }
  }

  /** Removing the same id twice is the same as removing it once. */
  lemma WithoutIdIdempotent(people: seq<Person>, id: string)
    ensures WithoutId(WithoutId(people, id), id) == WithoutId(people, id)
  {
    var r := WithoutId(people, id);
    forall i | 0 <= i < |r|
      ensures r[i].id != id
    {
      assert r[i] in r;
    }
    WithoutAbsentId(r, id);
  }

  /**
   * `people.map(p => p.id === id ? {...p, name, birthday} : p)`: the list
   * keeps its length and order, every entry with that id takes the new name
   * and birthday and keeps its id, and every other entry is unchanged.
   */
  function ReplaceById(people: seq<Person>, id: string, name: string, birthday: string): (r: seq<Person>)
    ensures |r| == |people|
    ensures forall i :: 0 <= i < |people| && people[i].id == id ==> r[i] == Person(id, name, birthday)
    ensures forall i :: 0 <= i < |people| && people[i].id != id ==> r[i] == people[i]
  {
    if people == [] then []
    else
      var p := people[0];
      var head := if p.id == id then p.(name := name, birthday := birthday) else p;
      [head] + ReplaceById(people[1..], id, name, birthday)
  }

  /** Editing never changes which ids the list holds, nor where. */
  lemma ReplaceByIdKeepsIds(people: seq<Person>, id: string, name: string, birthday: string, i: nat)
    requires i < |people|
    ensures |ReplaceById(people, id, name, birthday)| == |people|
    ensures ReplaceById(people, id, name, birthday)[i].id == people[i].id
  {
  }

  /** Applying the same edit twice is the same as applying it once. */
  lemma ReplaceByIdIdempotent(people: seq<Person>, id: string, name: string, birthday: string)
    ensures ReplaceById(ReplaceById(people, id, name, birthday), id, name, birthday) == ReplaceById(people, id, name, birthday)
  {
    var r := ReplaceById(people, id, name, birthday);
    var rr := ReplaceById(r, id, name, birthday);
    assert |rr| == |r|;
    forall i | 0 <= i < |r|
      ensures rr[i] == r[i]
    {
    }
  }

  // ---------------------------------------------------------------------------
  // Component state
  // ---------------------------------------------------------------------------

  /** The state of the calendar component and its handlers. */
  class App {
    var people: seq<Person>
    /** The "hectade-people" entry of local storage, when present. */
    var persisted: Option<seq<Person>>
    var newName: string
    var newBirthday: string
    var isAddDialogOpen: bool
    var editingPerson: Option<Person>
    var editName: string
    var editBirthday: string

    /** The stored list and the list on screen agree. */
    predicate Synced()
      reads this
    {
      persisted == Some(people)
    }

    /** Initial signal values; `stored` is what local storage already holds. */
    constructor (stored: Option<seq<Person>>)
      ensures people == [] && persisted == stored
      ensures newName == "" && newBirthday == "" && !isAddDialogOpen
      ensures editingPerson == None && editName == "" && editBirthday == ""
    {
      people := [];
      persisted := stored;
      newName := "";
      newBirthday := "";
      isAddDialogOpen := false;
      editingPerson := None;
      editName := "";
      editBirthday := "";
    }

    /** On mount: show the stored list, if there is one. */
    method LoadSaved()
      modifies this`people
      ensures people == (if persisted.Some? then persisted.value else old(people))
      ensures persisted.Some? ==> Synced()
    {
      if persisted.Some? {
        people := persisted.value;
      }
    }

    /** Shows `newPeople` and writes it to local storage. */
    method SavePeople(newPeople: seq<Person>)
      modifies this`people, this`persisted
      ensures people == newPeople && persisted == Some(newPeople)
      ensures Synced()
    {
      people := newPeople;
      persisted := Some(newPeople);
    }

    /**
     * With a non-empty name and birthday, appends a friend with the given id
     * and clears and closes the add dialog; otherwise does nothing.
     */
    method HandleAddPerson(id: string)
      modifies this
      ensures old(newName) == "" || old(newBirthday) == "" ==> unchanged(this)
      ensures old(newName) != "" && old(newBirthday) != "" ==>
                && people == old(people) + [Person(id, old(newName), old(newBirthday))]
                && Synced()
                && newName == "" && newBirthday == "" && !isAddDialogOpen
                && editingPerson == old(editingPerson) && editName == old(editName) && editBirthday == old(editBirthday)
    {
      if newName == "" || newBirthday == "" {
        return;
      }
      var person := Person(id, newName, newBirthday);
      SavePeople(people + [person]);
      newName := "";
      newBirthday := "";
      isAddDialogOpen := false;
    }

    /** Drops every friend with the given id. */
    method HandleRemovePerson(id: string)
      modifies this`people, this`persisted
      ensures people == WithoutId(old(people), id)
      ensures Synced()
    {
      SavePeople(WithoutId(people, id));
    }

    /** Opens the edit dialog on `person`, with its name and birthday. */
    method OpenEditDialog(person: Person)
      modifies this`editingPerson, this`editName, this`editBirthday
      ensures editingPerson == Some(person) && editName == person.name && editBirthday == person.birthday
    {
      editingPerson := Some(person);
      editName := person.name;
      editBirthday := person.birthday;
    }

    /**
     * With a friend being edited and a non-empty name and birthday, gives
     * every entry with that friend's id the new name and birthday and closes
     * the edit dialog; otherwise does nothing.
     */
    method HandleEditPerson()
      modifies this
      ensures old(editingPerson) == None || old(editName) == "" || old(editBirthday) == "" ==> unchanged(this)
      ensures old(editingPerson).Some? && old(editName) != "" && old(editBirthday) != "" ==>
                && people == ReplaceById(old(people), old(editingPerson).value.id, old(editName), old(editBirthday))
                && Synced()
                && editingPerson == None
                && editName == old(editName) && editBirthday == old(editBirthday)
                && newName == old(newName) && newBirthday == old(newBirthday) && isAddDialogOpen == old(isAddDialogOpen)
    {
      var person := editingPerson;
      if person == None || editName == "" || editBirthday == "" {
        return;
      }
      SavePeople(ReplaceById(people, person.value.id, editName, editBirthday));
      editingPerson := None;
    }

    /** Typing in the add dialog's name field. */
    method SetNewName(value: string)
      modifies this`newName
      ensures newName == value
    {
      newName := value;
    }

    /** Typing in the add dialog's birthday field. */
    method SetNewBirthday(value: string)
      modifies this`newBirthday
      ensures newBirthday == value
    {
      newBirthday := value;
    }

    /** The add dialog opening or closing. */
    method SetAddDialogOpen(open: bool)
      modifies this`isAddDialogOpen
      ensures isAddDialogOpen == open
    {
      isAddDialogOpen := open;
    }

    /** Typing in the edit dialog's name field. */
    method SetEditName(value: string)
      modifies this`editName
      ensures editName == value
    {
      editName := value;
    }

    /** Typing in the edit dialog's birthday field. */
    method SetEditBirthday(value: string)
      modifies this`editBirthday
      ensures editBirthday == value
    {
      editBirthday := value;
    }

    /** Closing the edit dialog abandons the edit; opening it changes nothing. */
    method OnEditDialogOpenChange(open: bool)
      modifies this`editingPerson
      ensures editingPerson == (if open then old(editingPerson) else None)
    {
      if !open {
        editingPerson := None;
      }
    }
  }

  /**
   * A remove after an add of a fresh id gives back the list as it was: the
   * handlers' effects compose as the list functions say.
   */
  method AddThenRemove(app: App, id: string)
    requires app.newName != "" && app.newBirthday != ""
    requires forall i :: 0 <= i < |app.people| ==> app.people[i].id != id
    modifies app
    ensures app.people == old(app.people) && app.Synced()
  {
    ghost var before := app.people;
    app.HandleAddPerson(id);
    assert app.people == before + [Person(id, old(app.newName), old(app.newBirthday))];
    app.HandleRemovePerson(id);
    WithoutIdAppend(before, [Person(id, old(app.newName), old(app.newBirthday))], id);
    WithoutAbsentId(before, id);
  }
}
