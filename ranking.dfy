/** The ranking page: the ten best registered users, read from the stored user list. */
module Ranking {
  import opened Common
  import opened Leaderboard
  import opened UserStore

  /** The image a user without an avatar is shown with. */
  const DefaultAvatar: string := "/avatares/menino-matematica.png"

  datatype Entry = Entry(id: string, nome: string, username: string, avatar: string, pontuacao: int, nivel: int)

  function EntryScore(e: Entry): int { e.pontuacao }

  /**
   * One user as a ranking entry; JavaScript's `||` replaces an empty name or avatar and a
   * missing or zero score or level by its default.
   */
  function ToEntry(u: Profile): (e: Entry)
    ensures e.id == u.id && e.username == u.username
    ensures u.nome != "" ==> e.nome == u.nome
    ensures u.nome == "" ==> e.nome == u.username
    ensures e.avatar != "" && (u.avatar.Some? && u.avatar.value != "" ==> e.avatar == u.avatar.value)
    ensures u.pontuacao.Some? ==> e.pontuacao == u.pontuacao.value
    ensures u.pontuacao.None? ==> e.pontuacao == 0
    ensures e.nivel != 0 && (u.nivel.Some? && u.nivel.value != 0 ==> e.nivel == u.nivel.value)
  {
    Entry(
      u.id,
      if u.nome != "" then u.nome else u.username,
      u.username,
      if u.avatar.Some? && u.avatar.value != "" then u.avatar.value else DefaultAvatar,
      u.pontuacao.GetOr(0),
      if u.nivel.Some? && u.nivel.value != 0 then u.nivel.value else 1)
  }

  function Entries(l: seq<UserRecord>): (r: seq<Entry>)
    ensures |r| == |l| && forall i :: 0 <= i < |l| ==> r[i] == ToEntry(l[i].profile)
  {
    seq(|l|, i requires 0 <= i < |l| => ToEntry(l[i].profile))
  }

  /**
   * `carregarRanking`: nothing when the list is absent or unreadable; otherwise at most ten
   * entries in non-increasing score order, each made from one stored user, with no left-out
   * user scoring above the last entry.
   */
  function CarregarRanking(stored: Stored<seq<UserRecord>>): (r: seq<Entry>)
    ensures !stored.Present? ==> r == []
    ensures stored.Present? ==> |r| == Min(10, |stored.value|)
    ensures NonIncreasing(r, EntryScore)
    ensures stored.Present? ==> multiset(r) <= multiset(Entries(stored.value))
    ensures stored.Present? ==>
      forall e :: e in r ==> exists i :: 0 <= i < |stored.value| && e == ToEntry(stored.value[i].profile)
    ensures stored.Present? && |r| > 0 ==>
      forall i :: 0 <= i < |stored.value| && ToEntry(stored.value[i].profile) !in r ==>
        ToEntry(stored.value[i].profile).pontuacao <= r[|r| - 1].pontuacao
  {
    match stored
    case Present(l) =>
      var all := Entries(l);
      var r := Top(all, 10, EntryScore);
      forall e | e in r ensures exists i :: 0 <= i < |l| && e == ToEntry(l[i].profile) {
        assert e in multiset(r);
        assert e in multiset(all);
        var i :| 0 <= i < |all| && all[i] == e;
      }
      forall i | 0 <= i < |l| && |r| > 0 && ToEntry(l[i].profile) !in r
        ensures ToEntry(l[i].profile).pontuacao <= r[|r| - 1].pontuacao
      {
        assert all[i] in multiset(all);
        assert all[i] !in multiset(r);
      }
      r
    case _ => []
  }
}
