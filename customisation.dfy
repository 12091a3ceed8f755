/**
 * The player customisation wizard: three tabs in which an avatar, a difficulty and a game
 * mode are chosen, in that order, before the choices are saved to the profile.
 */
module Customisation {
  import opened Common
  import opened UserStore

  datatype Tab = AvatarTab | DificuldadeTab | ModoTab

  datatype AvatarInfo = AvatarInfo(id: int, name: string, image: string)

  /** `avatares`. */
  const Avatares: seq<AvatarInfo> := [
    AvatarInfo(1, "Matheus", "/avatares/menino-matematica.png"),
    AvatarInfo(2, "Luana", "/avatares/menina-matematica.png"),
    AvatarInfo(3, "Robô Calc", "/avatares/robo-matematica.png"),
    AvatarInfo(4, "Professora Pi", "/avatares/professora-matematica.png")]

  /** No two avatars share an id. */
  lemma AvatarIdsDistinct()
    ensures forall i, j :: 0 <= i < j < |Avatares| ==> Avatares[i].id != Avatares[j].id
  {
  }

  /** `avancarAba`: avatar to difficulty, difficulty to mode; the mode tab is the last. */
  function NextTab(t: Tab): (n: Tab)
    ensures t == AvatarTab ==> n == DificuldadeTab
    ensures t == DificuldadeTab ==> n == ModoTab
    ensures t == ModoTab ==> n == ModoTab
  {
    match t
    case AvatarTab => DificuldadeTab
    case DificuldadeTab => ModoTab
    case ModoTab => ModoTab
  }

  /** The position of a tab in the wizard. */
  function TabRank(t: Tab): (k: nat)
    ensures k < 3
  {
    match t
    case AvatarTab => 0
    case DificuldadeTab => 1
    case ModoTab => 2
  }

  /** Advancing never goes back, moves one step unless on the last tab, and two steps from
      any tab reach the mode tab. */
  lemma NextTabAdvances(t: Tab)
    ensures TabRank(NextTab(t)) == Min(TabRank(t) + 1, 2)
    ensures NextTab(t) == t <==> t == ModoTab
    ensures NextTab(NextTab(t)) == ModoTab
  {
  }

  /** The back buttons: difficulty to avatar, mode to difficulty. */
  function PreviousTab(t: Tab): (p: Tab)
    ensures TabRank(p) == if t == AvatarTab then 0 else TabRank(t) - 1
  {
    match t
    case AvatarTab => AvatarTab
    case DificuldadeTab => AvatarTab
    case ModoTab => DificuldadeTab
  }

  /** Going back from any tab but the first and then forward returns to it. */
  lemma BackThenNext(t: Tab)
    requires t != AvatarTab
    ensures NextTab(PreviousTab(t)) == t
  {
  }

  /** `todasSelecoesConcluidas`. */
  predicate AllChosen(avatar: Option<int>, dificuldade: Option<Difficulty>, modo: Option<Mode>)
  {
    avatar.Some? && dificuldade.Some? && modo.Some?
  }

  /** Whether a tab can be opened: the difficulty tab once an avatar is chosen, the mode tab
      once a difficulty is chosen. */
  predicate TabEnabled(t: Tab, avatar: Option<int>, dificuldade: Option<Difficulty>)
  {
    match t
    case AvatarTab => true
    case DificuldadeTab => avatar.Some?
    case ModoTab => dificuldade.Some?
  }

  /** Whether the "next" button of a tab can be pressed; the mode tab has none. */
  predicate NextEnabled(t: Tab, avatar: Option<int>, dificuldade: Option<Difficulty>)
  {
    match t
    case AvatarTab => avatar.Some?
    case DificuldadeTab => dificuldade.Some?
    case ModoTab => false
  }

  /** Whether the start button can be pressed. */
  predicate StartEnabled(modo: Option<Mode>) { modo.Some? }

  /**
   * What the gating guarantees about the wizard's state: every tab shown was reachable,
   * and a choice is only made on its own tab, so each choice implies the earlier ones.
   */
  predicate Reachable(t: Tab, avatar: Option<int>, dificuldade: Option<Difficulty>, modo: Option<Mode>)
  {
    && TabEnabled(t, avatar, dificuldade)
    && (dificuldade.Some? ==> avatar.Some?)
    && (modo.Some? ==> dificuldade.Some?)
    && (avatar.Some? ==> exists k :: 0 <= k < |Avatares| && Avatares[k].id == avatar.value)
  }

  /** In a reachable state the start button is enabled exactly when every choice is made. */
  lemma StartMeansAllChosen(t: Tab, avatar: Option<int>, dificuldade: Option<Difficulty>, modo: Option<Mode>)
    requires Reachable(t, avatar, dificuldade, modo)
    ensures StartEnabled(modo) <==> AllChosen(avatar, dificuldade, modo)
  {
  }

  /** `avatares.find((a) => a.id === id)?.image`: the image of the first avatar with that id. */
  function FindImage(l: seq<AvatarInfo>, id: int): (r: Option<string>)
    ensures r.None? <==> forall k :: 0 <= k < |l| ==> l[k].id != id
    ensures r.Some? ==>
      exists k :: 0 <= k < |l| && l[k].id == id && l[k].image == r.value && forall j :: 0 <= j < k ==> l[j].id != id
  {
    if l == [] then None
    else if l[0].id == id then Some(l[0].image)
    else
      var r := FindImage(l[1..], id);
      assert forall k :: 1 <= k < |l| ==> l[k] == l[1..][k - 1];
      if r.Some? then
        ghost var k :| 0 <= k < |l[1..]| && l[1..][k].id == id && l[1..][k].image == r.value
          && forall j :: 0 <= j < k ==> l[1..][j].id != id;
        assert l[k + 1].id == id && l[k + 1].image == r.value;
        r
      else r
  }

  /** Since the ids are distinct, the image found for an avatar's id is that avatar's own. */
  lemma {:induction false} ImageOfChosenAvatar(k: nat)
    requires k < |Avatares|
    ensures FindImage(Avatares, Avatares[k].id) == Some(Avatares[k].image)
  {
    AvatarIdsDistinct();
    var r := FindImage(Avatares, Avatares[k].id);
    var j :| 0 <= j < |Avatares| && Avatares[j].id == Avatares[k].id && Avatares[j].image == r.value
      && forall i :: 0 <= i < j ==> Avatares[i].id != Avatares[k].id;
    assert j == k;
  }

  /** The patch `iniciarJogo` sends: the chosen avatar's image, the difficulty and the mode. */
  function ChoicesPatch(avatar: int, dificuldade: Difficulty, modo: Mode): (p: Patch)
    ensures p.avatar == FindImage(Avatares, avatar)
    ensures p.dificuldade == Some(dificuldade) && p.modoJogo == Some(modo)
    ensures p.pontuacao.None? && p.nivel.None?
  {
    Patch(FindImage(Avatares, avatar), Some(dificuldade), Some(modo), None, None)
  }

  class Wizard {
    /** The application's profile store. */
    const store: Store
    var activeTab: Tab
    var selectedAvatar: Option<int>
    var selectedDificuldade: Option<Difficulty>
    var selectedModo: Option<Mode>

    predicate Valid()
      reads this, store
    {
      store.Valid() && Reachable(activeTab, selectedAvatar, selectedDificuldade, selectedModo)
    }

    /** The wizard as first shown: the avatar tab, nothing chosen. */
    constructor (s: Store)
      requires s.Valid()
      ensures Valid() && store == s
      ensures activeTab == AvatarTab && selectedAvatar.None?
      ensures selectedDificuldade.None? && selectedModo.None?
    {
      store := s;
      activeTab := AvatarTab;
      selectedAvatar := None;
      selectedDificuldade := None;
      selectedModo := None;
    }

    /** A click on avatar k, possible while the avatar tab is shown. */
    method ChooseAvatar(k: nat)
      requires Valid() && k < |Avatares|
      modifies this`selectedAvatar
      ensures Valid()
      ensures old(activeTab) == AvatarTab ==> selectedAvatar == Some(Avatares[k].id)
      ensures old(activeTab) != AvatarTab ==> selectedAvatar == old(selectedAvatar)
    {
      if activeTab == AvatarTab {
        selectedAvatar := Some(Avatares[k].id);
      }
    }

    /** A click on a difficulty, possible while the difficulty tab is shown. */
    method ChooseDificuldade(d: Difficulty)
      requires Valid()
      modifies this`selectedDificuldade
      ensures Valid()
      ensures old(activeTab) == DificuldadeTab ==> selectedDificuldade == Some(d)
      ensures old(activeTab) != DificuldadeTab ==> selectedDificuldade == old(selectedDificuldade)
    {
      if activeTab == DificuldadeTab {
        selectedDificuldade := Some(d);
      }
    }

    /** A click on a mode, possible while the mode tab is shown. */
    method ChooseModo(m: Mode)
      requires Valid()
      modifies this`selectedModo
      ensures Valid()
      ensures old(activeTab) == ModoTab ==> selectedModo == Some(m)
      ensures old(activeTab) != ModoTab ==> selectedModo == old(selectedModo)
    {
      if activeTab == ModoTab {
        selectedModo := Some(m);
      }
    }

    /** A click on a tab header; a disabled header does nothing. */
    method SelectTab(t: Tab)
      requires Valid()
      modifies this`activeTab
      ensures Valid()
      ensures TabEnabled(t, selectedAvatar, selectedDificuldade) ==> activeTab == t
      ensures !TabEnabled(t, selectedAvatar, selectedDificuldade) ==> activeTab == old(activeTab)
    {
      if TabEnabled(t, selectedAvatar, selectedDificuldade) {
        activeTab := t;
      }
    }

    /** The "next" button, which runs `avancarAba` when enabled. */
    method ClickNext()
      requires Valid()
      modifies this`activeTab
      ensures Valid()
      ensures NextEnabled(old(activeTab), selectedAvatar, selectedDificuldade) ==> activeTab == NextTab(old(activeTab))
      ensures !NextEnabled(old(activeTab), selectedAvatar, selectedDificuldade) ==> activeTab == old(activeTab)
    {
      if NextEnabled(activeTab, selectedAvatar, selectedDificuldade) {
        activeTab := NextTab(activeTab);
      }
    }

    /** The "back" button of the difficulty and mode tabs. */
    method ClickBack()
      requires Valid()
      modifies this`activeTab
      ensures Valid()
      ensures activeTab == PreviousTab(old(activeTab))
    {
      activeTab := PreviousTab(activeTab);
    }

    /**
     * The start button, enabled once a mode is chosen, which runs `iniciarJogo`: with every
     * choice made it saves them to the profile and leaves for the game screen.
     */
    method ClickStart() returns (started: bool)
      requires Valid()
      modifies store
      ensures Valid()
      ensures started <==> StartEnabled(selectedModo)
      ensures started <==> AllChosen(selectedAvatar, selectedDificuldade, selectedModo)
      ensures started ==>
        var p := ChoicesPatch(selectedAvatar.value, selectedDificuldade.value, selectedModo.value);
        && store.estaLogado == old(store.estaLogado)
        && (old(store.usuario).Some? ==> store.usuario == Some(Merge(old(store.usuario).value, p)))
        && (old(store.usuario).None? ==> unchanged(store))
        && store.Updated(p)
      ensures !started ==> unchanged(store)
      ensures old(store.Synced()) ==> store.Synced()
    {
      StartMeansAllChosen(activeTab, selectedAvatar, selectedDificuldade, selectedModo);
      started := StartEnabled(selectedModo) && AllChosen(selectedAvatar, selectedDificuldade, selectedModo);
      if started {
        store.AtualizarUsuario(ChoicesPatch(selectedAvatar.value, selectedDificuldade.value, selectedModo.value));
      }
    }
  }
}
