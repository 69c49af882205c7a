/** The friend lobby (`Playwithfriend.jsx`): a list of trainers added by
    name (unique regardless of case), a selection that toggles, and a
    battle against the selected trainer when that trainer is online.  The
    React state is a class whose fields the handlers reassign. */
module PlayWithFriend {
  import opened Wrappers
  import opened Text

  /** A registered trainer; `id` is the `Date.now()` of registration. */
  datatype Trainer = Trainer(id: int, name: string, isOnline: bool)

  /** The text under the add form. */
  datatype AddMessage =
    | NoAddMessage
    | EnterName
    | AlreadyRegistered(name: string)
    | Registered(name: string)

  /** `trainers.some(t => t.name.toLowerCase() === name.toLowerCase())`. */
  function NameTaken(trainers: seq<Trainer>, name: string): (b: bool)
    ensures b <==> exists i :: 0 <= i < |trainers| && Lower(trainers[i].name) == Lower(name)
  {
    if trainers == [] then false
    else if Lower(trainers[0].name) == Lower(name) then true
    else
      var b := NameTaken(trainers[1..], name);
      assert forall i :: 1 <= i < |trainers| ==> trainers[i] == trainers[1..][i - 1];
      b
  }

  /** `trainers.find(t => t.id === id)`: the first trainer with that id. */
  function Find(trainers: seq<Trainer>, id: Option<int>): (r: Option<Trainer>)
    ensures r.None? <==> id.None? || forall i :: 0 <= i < |trainers| ==> trainers[i].id != id.value
    ensures r.Some? ==> exists i :: 0 <= i < |trainers| && trainers[i] == r.value
                          && r.value.id == id.value
                          && forall j :: 0 <= j < i ==> trainers[j].id != id.value
  {
    if id.None? || trainers == [] then None
    else if trainers[0].id == id.value then Some(trainers[0])
    else
      var r := Find(trainers[1..], id);
      assert forall i :: 1 <= i < |trainers| ==> trainers[i] == trainers[1..][i - 1];
      if r.Some? then
        var i :| 0 <= i < |trainers[1..]| && trainers[1..][i] == r.value && r.value.id == id.value
                 && forall j :: 0 <= j < i ==> trainers[1..][j].id != id.value;
        assert trainers[i + 1] == r.value;
        r
      else r
  }

  /** No two trainers whose names differ only in case. */
  predicate UniqueNames(trainers: seq<Trainer>) {
    forall i, j :: 0 <= i < j < |trainers| ==> Lower(trainers[i].name) != Lower(trainers[j].name)
  }

  /** A name as `trim` leaves it: not empty, no white space at either end. */
  predicate Trimmed(name: string) {
    name != [] && !IsSpace(name[0]) && !IsSpace(name[|name| - 1])
  }

  /** Every trainer's name is trimmed. */
  predicate AllTrimmed(trainers: seq<Trainer>) {
    forall i :: 0 <= i < |trainers| ==> Trimmed(trainers[i].name)
  }

  /** `prevId === trainerId ? null : trainerId`. */
  function ToggleSelection(prev: Option<int>, id: int): (r: Option<int>)
    ensures r.None? <==> prev == Some(id)
    ensures r.Some? ==> r.value == id
  {
    if prev == Some(id) then None else Some(id)
  }

  /** Selecting the same trainer twice leaves nothing selected, unless it
      was selected to begin with. */
  lemma SelectTwice(prev: Option<int>, id: int)
    ensures prev != Some(id) ==> ToggleSelection(ToggleSelection(prev, id), id) == None
    ensures prev == Some(id) ==> ToggleSelection(ToggleSelection(prev, id), id) == prev
  {
  }

  /** `isOnline` after one round of the status simulation: `keep` stands
      for `Math.random() > 0.3`. */
  function Flip(t: Trainer, keep: bool): (r: Trainer)
    ensures r.id == t.id && r.name == t.name
    ensures r.isOnline == (t.isOnline == keep)
  {
    t.(isOnline := if keep then t.isOnline else !t.isOnline)
  }

  datatype LobbyView = LobbyView(
    trainers: seq<Trainer>,
    newTrainerUsername: string,
    addTrainerMessage: AddMessage,
    selectedTrainerId: Option<int>,
    isInBattle: bool,
    currentOpponent: Option<Trainer>)

  class FriendLobby {
    var trainers: seq<Trainer>
    var newTrainerUsername: string
    var addTrainerMessage: AddMessage
    var selectedTrainerId: Option<int>
    var isInBattle: bool
    var currentOpponent: Option<Trainer>

    /** Trimmed names, unique regardless of case; an opponent exactly while
        a battle runs, and no selection then. */
    predicate Valid()
      reads this
    {
      UniqueNames(trainers)
      && AllTrimmed(trainers)
      && (isInBattle <==> currentOpponent.Some?)
      && (isInBattle ==> selectedTrainerId.None?)
    }

    function View(): LobbyView
      reads this
    {
      LobbyView(trainers, newTrainerUsername, addTrainerMessage, selectedTrainerId, isInBattle, currentOpponent)
    }

    /** `selectedTrainer`. */
    function SelectedTrainer(): (r: Option<Trainer>)
      reads this
      ensures r.Some? ==> r.value in trainers && selectedTrainerId == Some(r.value.id)
    {
      Find(trainers, selectedTrainerId)
    }

    /** The page as it mounts: nobody registered, nothing selected. */
    constructor ()
      ensures Valid()
      ensures View() == LobbyView([], "", NoAddMessage, None, false, None)
    {
      trainers := [];
      newTrainerUsername := "";
      addTrainerMessage := NoAddMessage;
      selectedTrainerId := None;
      isInBattle := false;
      currentOpponent := None;
    }

    /** The input's `onChange`. */
    method SetUsername(value: string)
      modifies this
      ensures View() == old(View()).(newTrainerUsername := value)
    {
      newTrainerUsername := value;
    }

    /** `handleAddTrainer`, with `now` for `Date.now()` and `online` for
        `Math.random() > 0.5`: an empty name (after trimming) is refused
        and the input kept; a name already registered (ignoring case) is
        refused and the input cleared; any other name is appended. */
    method AddTrainer(now: int, online: bool)
      requires Valid()
      modifies this
      ensures Valid()
      ensures var name := Trim(old(newTrainerUsername));
        if name == [] then
          View() == old(View()).(addTrainerMessage := EnterName)
        else if NameTaken(old(trainers), name) then
          View() == old(View()).(addTrainerMessage := AlreadyRegistered(name), newTrainerUsername := "")
        else
          View() == old(View()).(trainers := old(trainers) + [Trainer(now, name, online)],
                                 addTrainerMessage := Registered(name), newTrainerUsername := "")
    {
      SubmitName(Trim(newTrainerUsername), now, online);
    }

    /** `handleAddTrainer` once the input is trimmed to `name`. */
    method SubmitName(name: string, now: int, online: bool)
      requires Valid() && (name == [] || Trimmed(name))
      modifies this
      ensures Valid()
      ensures if name == [] then
          View() == old(View()).(addTrainerMessage := EnterName)
        else if NameTaken(old(trainers), name) then
          View() == old(View()).(addTrainerMessage := AlreadyRegistered(name), newTrainerUsername := "")
        else
          View() == old(View()).(trainers := old(trainers) + [Trainer(now, name, online)],
                                 addTrainerMessage := Registered(name), newTrainerUsername := "")
    {
      addTrainerMessage := NoAddMessage;
      if name == [] {
        addTrainerMessage := EnterName;
        return;
      }
      if NameTaken(trainers, name) {
        addTrainerMessage := AlreadyRegistered(name);
        newTrainerUsername := "";
        return;
      }
      Register(Trainer(now, name, online));
    }

    /** The last step of `handleAddTrainer`: `t` joins the list. */
    method Register(t: Trainer)
      requires Valid() && Trimmed(t.name) && !NameTaken(trainers, t.name)
      modifies this
      ensures Valid()
      ensures View() == old(View()).(trainers := old(trainers) + [t],
                                     addTrainerMessage := Registered(t.name), newTrainerUsername := "")
    {
      AppendKeepsNames(trainers, t);
      trainers := trainers + [t];
      addTrainerMessage := Registered(t.name);
      newTrainerUsername := "";
    }

    /** The `setTimeout` that clears the message three seconds later. */
    method ClearAddMessage()
      modifies this
      ensures View() == old(View()).(addTrainerMessage := NoAddMessage)
    {
      addTrainerMessage := NoAddMessage;
    }

    /** `handleSelectTrainer`: ignored during a battle, otherwise toggles. */
    method SelectTrainer(id: int)
      requires Valid()
      modifies this
      ensures Valid()
      ensures old(isInBattle) ==> View() == old(View())
      ensures !old(isInBattle) ==>
        View() == old(View()).(selectedTrainerId := ToggleSelection(old(selectedTrainerId), id))
    {
      if isInBattle {
        return;
      }
      selectedTrainerId := ToggleSelection(selectedTrainerId, id);
    }

    /** `handleStartBattle`: only with a selected trainer who is online and
        no battle running; the trainer becomes the opponent and the
        selection is cleared. */
    method StartBattle()
      requires Valid()
      modifies this
      ensures Valid()
      ensures var t := Find(old(trainers), old(selectedTrainerId));
        if t.None? || !t.value.isOnline || old(isInBattle) then View() == old(View())
        else View() == old(View()).(isInBattle := true, currentOpponent := t, selectedTrainerId := None)
    {
      Challenge(SelectedTrainer());
    }

    /** `handleStartBattle` once `selectedTrainer` is looked up as `t`. */
    method Challenge(t: Option<Trainer>)
      requires Valid()
      modifies this
      ensures Valid()
      ensures if t.None? || !t.value.isOnline || old(isInBattle) then View() == old(View())
        else View() == old(View()).(isInBattle := true, currentOpponent := t, selectedTrainerId := None)
    {
      if t.None? || !t.value.isOnline || isInBattle {
        return;
      }
      isInBattle := true;
      currentOpponent := t;
      selectedTrainerId := None;
    }

    /** `handleEndBattle`: only during a battle. */
    method EndBattle()
      requires Valid()
      modifies this
      ensures Valid()
      ensures !old(isInBattle) ==> View() == old(View())
      ensures old(isInBattle) ==> View() == old(View()).(isInBattle := false, currentOpponent := None)
    {
      if !isInBattle {
        return;
      }
      isInBattle := false;
      currentOpponent := None;
    }

    /** One round of the status simulation. */
    method SimulateStatus(keep: seq<bool>)
      requires Valid() && |keep| == |trainers|
      modifies this
      ensures Valid()
      ensures View() == old(View()).(trainers := FlipAll(old(trainers), keep))
    {
      FlipAllKeepsNames(trainers, keep);
      trainers := FlipAll(trainers, keep);
    }
  }

  /** `currentTrainers.map(...)` with `keep[i]` for trainer `i`'s draw. */
  function FlipAll(trainers: seq<Trainer>, keep: seq<bool>): (r: seq<Trainer>)
    requires |keep| == |trainers|
    ensures |r| == |trainers|
    ensures forall i :: 0 <= i < |r| ==> r[i] == Flip(trainers[i], keep[i])
  {
    if trainers == [] then [] else [Flip(trainers[0], keep[0])] + FlipAll(trainers[1..], keep[1..])
  }

  /** The simulation changes only `isOnline`: ids, names and their order
      stay, so the name invariants do too. */
  lemma FlipAllKeepsNames(trainers: seq<Trainer>, keep: seq<bool>)
    requires |keep| == |trainers|
    ensures var r := FlipAll(trainers, keep);
      forall i :: 0 <= i < |r| ==> r[i].id == trainers[i].id && r[i].name == trainers[i].name
    ensures UniqueNames(trainers) ==> UniqueNames(FlipAll(trainers, keep))
  {
  }

  /** A trimmed name that is not taken can be appended without breaking
      uniqueness. */
  lemma AppendKeepsNames(trainers: seq<Trainer>, t: Trainer)
    requires UniqueNames(trainers) && !NameTaken(trainers, t.name)
    requires AllTrimmed(trainers) && Trimmed(t.name)
    ensures UniqueNames(trainers + [t]) && AllTrimmed(trainers + [t])
  {
  }
}
