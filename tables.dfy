/** The three database tables the routes read and write (`users`, `places`,
    `bookings`), and the SQL statements they run against them, over in-memory
    rows kept in insertion order. */
module Tables {
  import opened Primitives

  /** A row of `users`; `password` holds the bcrypt digest, never the password. */
  datatype User = User(id: nat, name: string, email: string, password: string)

  /** The columns of `places` that a request body supplies, on insert and on
      update alike. The photo and perk lists are stored as their JSON text;
      the serialisation is not part of this model. */
  datatype PlaceDetails = PlaceDetails(
    title: string, address: string, photos: seq<string>, description: string,
    perks: seq<string>, extraInfo: string, checkIn: string, checkOut: string,
    maxGuests: int, price: int)

  /** A row of `places`: the id assigned on insert, the body's columns, and the
      owner's e-mail (`user_email`). */
  datatype Place = Place(id: nat, details: PlaceDetails, userEmail: string)

  /** The columns of `bookings` that a request body supplies. `place` is the
      place's id as the client sent it. */
  datatype BookingDetails = BookingDetails(
    checkIn: string, checkOut: string, guests: int, name: string, phone: string,
    place: int, price: int)

  /** A row of `bookings`; `userId` holds the booker's e-mail. */
  datatype Booking = Booking(id: nat, details: BookingDetails, userId: string)

  /** `SELECT * FROM t WHERE c`: the rows that satisfy `keep`, in table order. */
  function Select<T(!new)>(rows: seq<T>, keep: T -> bool): (r: seq<T>)
    ensures forall x :: x in r <==> x in rows && keep(x)
    ensures |r| <= |rows|
    ensures |r| == |rows| <==> forall k :: 0 <= k < |rows| ==> keep(rows[k])
  {
    if rows == [] then []
    else
      var rest := Select(rows[1..], keep);
      assert rows == [rows[0]] + rows[1..];
      if keep(rows[0]) then [rows[0]] + rest else rest
  }

  /** `SELECT … WHERE c` keeps each satisfying row as many times as the table
      holds it, and drops every other row. */
  lemma {:induction false} SelectCounts<T(!new)>(rows: seq<T>, keep: T -> bool)
    ensures forall x :: multiset(Select(rows, keep))[x] == if keep(x) then multiset(rows)[x] else 0
  {
    if rows != [] {
      SelectCounts(rows[1..], keep);
      var rest := Select(rows[1..], keep);
      assert rows == [rows[0]] + rows[1..];
      assert multiset(rows) == multiset{rows[0]} + multiset(rows[1..]);
      if keep(rows[0]) {
        assert multiset(Select(rows, keep)) == multiset{rows[0]} + multiset(rest);
      } else {
        assert Select(rows, keep) == rest;
      }
    }
  }

  /** Index of `rows[0]` of a `SELECT ... WHERE c` result: the first row that
      satisfies `keep`, or `None` when the result is empty. */
  function FirstWhere<T>(rows: seq<T>, keep: T -> bool): (r: Option<nat>)
    ensures r.None? <==> forall k :: 0 <= k < |rows| ==> !keep(rows[k])
    ensures r.Some? ==> r.value < |rows| && keep(rows[r.value]) &&
                        forall k :: 0 <= k < r.value ==> !keep(rows[k])
  {
    if rows == [] then None
    else if keep(rows[0]) then Some(0)
    else
      match FirstWhere(rows[1..], keep)
      case None => None
      case Some(k) => Some(k + 1)
  }

  /** `UPDATE places SET <details> WHERE user_email = key`. A `None` key is SQL
      NULL, which equals no value, so it selects no row. Ids and owners are
      never among the columns set. */
  function UpdateWhereOwner(rows: seq<Place>, key: Option<string>, d: PlaceDetails): (r: seq<Place>)
    ensures |r| == |rows|
    ensures forall k :: 0 <= k < |rows| ==> r[k].id == rows[k].id && r[k].userEmail == rows[k].userEmail
    ensures forall k :: 0 <= k < |rows| ==> (r[k] == rows[k] || key == Some(rows[k].userEmail))
  {
    if rows == [] then []
    else
      var head := if key == Some(rows[0].userEmail) then rows[0].(details := d) else rows[0];
      [head] + UpdateWhereOwner(rows[1..], key, d)
  }

  /** An update keyed on NULL changes nothing. */
  lemma {:induction false} NullKeyUpdatesNothing(rows: seq<Place>, d: PlaceDetails)
    ensures UpdateWhereOwner(rows, None, d) == rows
  {
    if rows != [] {
      NullKeyUpdatesNothing(rows[1..], d);
    }
  }

  /** An update keyed on `email` gives every row owned by `email` the new
      details and leaves the other rows as they were. */
  lemma {:induction false} UpdateWhereOwnerExact(rows: seq<Place>, email: string, d: PlaceDetails)
    ensures forall k :: 0 <= k < |rows| ==>
      UpdateWhereOwner(rows, Some(email), d)[k] ==
        if rows[k].userEmail == email then rows[k].(details := d) else rows[k]
  {
    if rows != [] {
      UpdateWhereOwnerExact(rows[1..], email, d);
      var r := UpdateWhereOwner(rows, Some(email), d);
      forall k | 1 <= k < |rows|
        ensures r[k] == if rows[k].userEmail == email then rows[k].(details := d) else rows[k]
      {
        assert r[k] == UpdateWhereOwner(rows[1..], Some(email), d)[k - 1];
      }
    }
  }

  /** Row ids strictly increase in table order and stay below the next id the
      auto-increment counter hands out. */
  ghost predicate IdsAscendingBelow<T>(rows: seq<T>, id: T -> nat, next: nat)
  {
    (forall i, j :: 0 <= i < j < |rows| ==> id(rows[i]) < id(rows[j])) &&
    (forall i :: 0 <= i < |rows| ==> id(rows[i]) < next)
  }

  /** No two users share an e-mail. */
  ghost predicate UniqueEmails(users: seq<User>)
  {
    forall i, j :: 0 <= i < j < |users| ==> users[i].email != users[j].email
  }

  /** Appending a user whose e-mail is not taken keeps e-mails unique. */
  lemma AppendFreshEmail(users: seq<User>, u: User)
    requires UniqueEmails(users)
    requires forall v :: v in users ==> v.email != u.email
    ensures UniqueEmails(users + [u])
  {
    var all := users + [u];
    forall i, j | 0 <= i < j < |all| ensures all[i].email != all[j].email {
      assert all[i] in users;
      if j < |users| {
        assert all[i] == users[i] && all[j] == users[j];
      }
    }
  }

  /** Appending a row with the counter's id keeps ids ascending, one step on. */
  lemma AppendNextId<T>(rows: seq<T>, id: T -> nat, next: nat, row: T)
    requires IdsAscendingBelow(rows, id, next)
    requires id(row) == next
    ensures IdsAscendingBelow(rows + [row], id, next + 1)
  {
    var all := rows + [row];
    forall i, j | 0 <= i < j < |all| ensures id(all[i]) < id(all[j]) {
      assert all[i] == rows[i];
      if j < |rows| {
        assert all[j] == rows[j];
      }
    }
  }
}
