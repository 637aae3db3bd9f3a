// The user's own word list (data/local/entity/CustomWord.kt,
// data/local/dao/CustomWordDao.kt, data/repository/CustomWordRepository.kt):
// rows in stored order, keyed by an auto-generated id; the listing is newest
// first. The repository only forwards to the DAO, so both are this one class.
module CustomWords {
  import Ordering

  datatype CustomWord = CustomWord(
    id: int,
    word: string,
    partOfSpeech: string,
    phonetic: string,
    meaningEn: string,
    meaningZh: string,
    exampleSentence: string,
    exampleZh: string,
    category: string,
    createdAt: int)

  function CreatedAt(w: CustomWord): int { w.createdAt }

  /** `getAllWords`: `SELECT * FROM custom_words ORDER BY createdAt DESC`. */
  function AllWords(rows: seq<CustomWord>): (r: seq<CustomWord>)
    ensures multiset(r) == multiset(rows)
  {
    Ordering.SortDesc(rows, CreatedAt)
  }

  /** The rows whose id is not `id`, in order. */
  function WithoutId(rows: seq<CustomWord>, id: int): (r: seq<CustomWord>)
    ensures |r| <= |rows|
    decreases |rows|
  {
    if rows == [] then []
    else (if rows[0].id != id then [rows[0]] else []) + WithoutId(rows[1..], id)
  }

  ghost predicate KeysUnique(rows: seq<CustomWord>) {
    forall i, j :: 0 <= i < j < |rows| ==> rows[i].id != rows[j].id
  }

  /** Removing a key keeps every other row, drops every row with the key and
    * keeps the keys unique. */
  lemma {:induction false} WithoutIdRows(rows: seq<CustomWord>, id: int)
    ensures forall w :: w in WithoutId(rows, id) <==> w in rows && w.id != id
    ensures KeysUnique(rows) ==> KeysUnique(WithoutId(rows, id))
    decreases |rows|
  {
    if rows != [] {
      WithoutIdRows(rows[1..], id);
      var rest := WithoutId(rows[1..], id);
      forall w ensures w in WithoutId(rows, id) <==> w in rows && w.id != id {
        assert w in rows <==> w == rows[0] || w in rows[1..];
      }
      if KeysUnique(rows) && rows[0].id != id {
        var r := [rows[0]] + rest;
        forall i, j | 0 <= i < j < |r| ensures r[i].id != r[j].id {
          assert r[j] in rest && r[j] in rows[1..];
          var q :| 0 <= q < |rows[1..]| && rows[1..][q] == r[j];
          assert rows[q + 1] == r[j];
          if i > 0 {
            assert r[i] == rest[i - 1];
            assert KeysUnique(rows[1..]) by {
              forall a, b | 0 <= a < b < |rows[1..]| ensures rows[1..][a].id != rows[1..][b].id {
                assert rows[1..][a] == rows[a + 1] && rows[1..][b] == rows[b + 1];
              }
            }
          }
        }
      } else if KeysUnique(rows) {
        assert KeysUnique(rows[1..]) by {
          forall a, b | 0 <= a < b < |rows[1..]| ensures rows[1..][a].id != rows[1..][b].id {
            assert rows[1..][a] == rows[a + 1] && rows[1..][b] == rows[b + 1];
          }
        }
      }
    }
  }

  class CustomWordDao {
    var rows: seq<CustomWord>
    /** The largest id handed out so far (the AUTOINCREMENT sequence). */
    var lastId: int

    ghost predicate Valid()
      reads this
    {
      KeysUnique(rows) && forall k :: 0 <= k < |rows| ==> rows[k].id <= lastId
    }

    constructor()
      ensures Valid() && rows == [] && lastId == 0
    {
      rows := [];
      lastId := 0;
    }

    /** `insert` with `OnConflictStrategy.REPLACE`: id 0 asks for a new id
      * above every id handed out so far; any other id replaces the row
      * holding it. */
    method Insert(word: CustomWord) returns (id: int)
      requires Valid()
      modifies this
      ensures Valid()
      ensures word.id == 0 ==> id == old(lastId) + 1 && lastId == id
      ensures word.id != 0 ==> id == word.id
      ensures rows == WithoutId(old(rows), id) + [word.(id := id)]
    {
      if word.id == 0 {
        id := lastId + 1;
        lastId := id;
      } else {
        id := word.id;
        if lastId < id {
          lastId := id;
        }
      }
      var kept := WithoutId(rows, id);
      WithoutIdRows(rows, id);
      rows := kept + [word.(id := id)];
      forall i, j | 0 <= i < j < |rows| ensures rows[i].id != rows[j].id {
        if j == |kept| {
          assert rows[i] in kept;
        }
      }
    }

    /** `delete(word)`: the row with the word's primary key goes. */
    method Delete(word: CustomWord)
      requires Valid()
      modifies this
      ensures Valid()
      ensures rows == WithoutId(old(rows), word.id) && lastId == old(lastId)
    {
      WithoutIdRows(rows, word.id);
      rows := WithoutId(rows, word.id);
    }

    /** `deleteById`. */
    method DeleteById(id: int)
      requires Valid()
      modifies this
      ensures Valid()
      ensures rows == WithoutId(old(rows), id) && lastId == old(lastId)
    {
      WithoutIdRows(rows, id);
      rows := WithoutId(rows, id);
    }
  }
}
