# Jeux server: a verified model

Jeux is a server for two-player tic-tac-toe. Clients connect, log in under a name, invite each other,
play and resign; players have Elo ratings. This project models the server's session core and proves
what its code keeps over every run.

## How the model is built

* **Objects.** `Game`, `Invitation`, `IdPool`, `InviteList`, `Client`, `Player`, `ClientRegistry`,
  `PlayerRegistry` and `Socket` are classes with the server's fields: real arrays for boards, ID pools,
  buffers and the client registry, linked nodes for the invitation lists and the player list.
* **World.** `World` holds all objects of a running server together with a ghost `State`, the abstract
  value of every object. `Operations` performs the server's operations on the objects in the server's
  own order of steps; each ends in exactly the state that the model function of the same name in
  `Sessions` gives. Every send has an outcome of its own, given as a parameter, and what is sent and
  what is posted is recorded in the state's log.
* **Runs.** `Runs` defines steps and runs over states. The theorems about runs are about all steps, all
  requests (whichever side asks, whatever the ID or text) and all outcomes of sends, unless they say
  "careful" (`Careful`), "honest" (`Honest`) or "delivered" (`Delivered`), which are conditions on the request and the
  sends that can be read off before the step.
* **Satellites.** `Players` (Elo with truncation, in exact reals), `Admission` (threads entering and
  leaving the client registry), `Protocol` (framing) and `GameText` (board and move texts).

A released object stays known with reference count 0; the invariant shows that nothing leads to it.
The operations that the server runs under one semaphore are atomic steps, and so are logging in, all
of `process_invite` (its look-up and the return of that reference happen outside the semaphore), and the
end of a service thread, log-out and unregistration together. A step is asked by a registered
client; all but connecting and logging in by one that is logged in.

Where the documentation and the code disagree the model follows the code, and a theorem says exactly
when the promise holds: who may revoke and decline (`Lifecycle.StrandedExactly`), resigning a finished
game (`Games.ResignAfterEnd`), parsing a move out of turn (`GameText.OutOfTurn`), and posting the winner of
a game, as recorded at the end (`Winners.WinnersExactly`) and as it first ended (`Outcomes.OutcomesExactly`), and
refusing a move in a game that is over (`Games.RefusesAfterEnd`). `FailingRuns` gives runs from the start in
which the promise fails. One of them ends in a use of a client after its release: `client_make_move` never
looks at the state of the invitation, so a player can move on in a finished game whose invitation was closed
without leaving the lists, and the removals that follow use the opponent's client after dropping the last
reference to it, exactly under the condition of `Runs.MoveReleasesExactly`.

| file | module | about |
|---|---|---|
| Basics.dfy | Basics | shared definitions |
| Game.dfy, GameText.dfy | Games, GameText | the rules, the game object, its texts |
| Player.dfy, PlayerRegistry.dfy | Players, PlayerRegistries | ratings and the player list |
| Clients.dfy, ClientRegistry.dfy | Clients, ClientRegistries | ID pools, lists, invitations, clients, the registry |
| SessionModel.dfy | Sessions | the state and every operation as a function of it |
| SessionRefs.dfy, SessionSteps.dfy, SessionJoin.dfy, SessionLeave.dfy, SessionRuns.dfy | References, Steps, Joining, Leaving, Runs | the invariant that needs no assumption on sends |
| SessionLife.dfy, SessionWrongSide.dfy | Lifecycle, WrongSide | lifecycles, exactly what strands an invitation, and that it stays so |
| SessionIds.dfy | InvitationIds | IDs in packets, the 8-bit field |
| SessionStory.dfy | Stories | notification traces |
| SessionPayloads.dfy | Payloads | what the texts in packets say |
| SessionLosses.dfy | Losses | the same traces with packets lost |
| SessionScores.dfy, SessionWinners.dfy, SessionOutcomes.dfy | Scoring, Winners, Outcomes | exactly-once scoring, ratings, the winner posted and the outcome first reached |
| SessionFailing.dfy | FailingRuns | runs in which a documented promise fails |
| World.dfy, Operations.dfy, Serving.dfy | Worlds, Operations, Serving | the operations on the objects, and serving requests |
| Admission.dfy, Protocol.dfy | Admission, Protocol | interleaved admission, packet framing |

`dafny verify dfyconfig.toml` checks everything.

## Model

| member | source | states |
|---|---|---|
| `Runs.EveryRun` | src/client.c:465-520 | In every state reachable by any steps, with any sends failing and either side asking, reference counts of clients, invitations, games and players are exact, list entries and IDs are pairwise distinct, players are unique per name and per registered client (CoreInv). |
| `Runs.NeverDangling` | src/invitation.c:108-127 | In such a state no request follows a reference to something unknown: every client, invitation, game and player an operation reaches is there. |
| `Runs.ReachesOnlyLive` | src/client.c:206-225 | When an operation begins in such a state its request reaches nothing released: the asking client, the invitation, both its clients, its game and their players all have positive counts. |
| `Runs.CloseReleasesNoClient` | src/client.c:612-624 | Nor does revoking or declining, from either side, release one of the two clients on the way: both counts stay positive before, between and after the two removals, through the release cascade. |
| `Runs.PostReleasesNoClient` | src/client.c:807-825 | The same for the removals that follow a posted result. |
| `Runs.MoveReleasesNoClient` | src/client.c:928-944 | The same for a move in an accepted invitation. |
| `Runs.MoveReleasesExactly` | src/client.c:500-511 | A move that ends a game, whatever the state of its invitation, which the code does not look at: its removals spare the opponent if and only if the opponent is registered or named by another live invitation; otherwise the second one drops the opponent's last reference (line 506) and then gives an ID back to the released client's pool (line 510). |
| `Runs.MoveRemoves` | src/client.c:926-944 | The state of that statement is the one from which client_make_move removes. |
| `Runs.LiveThroughExactly` | src/client.c:500-511 | For any invitation in both lists, its two clients live through its removal from them if and only if each is registered or named by another live invitation. |
| `Runs.InvitationCount` | src/client.c:465-520 | An invitation's count is the number of clients whose list holds it, and each of those is its source or its target. |
| `Runs.ReleasedExactly` | src/client.c:255-274 | A client's count is positive exactly when the registry or a live invitation leads to it, a game's exactly when its invitation is live, and a registered player is never released. |
| `Runs.LoginsAreUnique` | src/client_registry.c:163-190 | No two registered clients have players of the same name, so the first match of creg_lookup is the only one. |
| `Runs.NextKeeps` | src/client.c:539-572 | One step of any kind keeps the invariant, whatever is sent and whichever side asks. |
| `Lifecycle.RunEvolves` | src/invitation.c:200-261 | Over any run the ends and roles of an invitation never change, its state only moves OPEN, ACCEPTED, CLOSED, and a game appears only on leaving OPEN and is never replaced. |
| `Lifecycle.StrandedExactly` | include/client.h:207-243 | The documentation promises that an invitation no longer open or in play is in no list. A step keeps that promise if and only if it is careful: revoking is done by the source, declining by the target, and no send fails whose failure makes the operation return early. |
| `Lifecycle.CarefulRun` | src/client.c:591-675 | After any run of careful steps every invitation in a list is open or has an unfinished game. |
| `Lifecycle.ListsAgree` | src/client.c:465-520 | Then an invitation is in both its clients' lists, once in each, or in no list at all, and no other client's list holds it. |
| `Lifecycle.RevokeStrands` | src/client.c:591-627 | A revoke request leaves nothing stranded if and only if, when its ID leads to an open invitation, the asker is its source and the packet is sent; a refused request strands nothing. |
| `Lifecycle.DeclineStrands` | src/client.c:646-675 | A decline request leaves nothing stranded if and only if, when its ID leads to an open invitation, the asker is its target, sent or not; a refused request strands nothing. |
| `Lifecycle.ResignStrands` | src/client.c:770-829 | A resign request leaves nothing stranded if and only if, when its ID leads to an accepted invitation, the packet is sent; a refused request strands nothing. |
| `Lifecycle.MoveStrands` | src/client.c:854-947 | Moving leaves nothing stranded if and only if, when the move ends the game, all three packets are sent. |
| `Lifecycle.MoveInProgress` | src/client.c:868-887 | In a state where nothing is stranded a legal move is in an unfinished game of an accepted invitation, and leads to a proper game. |
| `Games.RefusesAfterEnd` | include/client.h:291-293 | The documentation makes a move in a game not in progress an error. Of a game that is over and judged as every game of a run is (`Outcomes.JudgedRun`), every move is refused if and only if it was resigned or its board is full. |
| `Lifecycle.ExitStrands` | src/client.c:338-370 | A departure strands nothing if and only if every entry of the list is dealt with carefully. |
| `Lifecycle.ExitDeparts` | src/server.c:374-471 | After a careful departure the client's list is empty and its count zero, every invitation it had is closed, released and in nobody's list, and every other invitation keeps its state, game and IDs. |
| `WrongSide.StuckForEver` | src/client.c:591-675 | Once an invitation without a game is closed and yet in a list, no run of any steps takes it out, and its two clients are never released. |
| `FailingRuns.TargetRevokes` | src/client.c:591-627 | A run from the start in which the target revokes: the invitation ends closed, out of the target's list and, whatever follows, in the source's for good. |
| `FailingRuns.SourceDeclines` | src/client.c:646-675 | A run from the start in which the source declines: closed, out of the source's list and in the target's for good. |
| `FailingRuns.WinnerResigns` | src/client.c:770-829 | A run from the start in which the winner's ENDED packet is lost and the winner then resigns: the game records its winner, and the one result posted is the other's win. |
| `FailingRuns.LoserMovesOn` | src/game.c:113-133 | A run from the start in which the winner's ENDED packet is lost and the loser moves once more: the move completes an earlier line of the scan, and the game that First had won is recorded and scored as Second's. |
| `FailingRuns.LoserOutlastsWinner` | src/client.c:928-944 | A run from the start in which the winner's ENDED is lost and the winner leaves with RESIGNED lost; the loser's next legal move, all sent, ends with removals that release the winner's client before its ID is given back. |
| `Winners.OneResultEach` | src/client.c:118-140 | In every run, whatever is lost and whichever side asks, an accepted invitation that has left the lists has exactly one posted result, between its two different players in role order, and any other invitation has none. |
| `Winners.WinnersExactly` | src/client.c:770-829 | As long as every posted result names the winner that its game records at the end, the next step keeps that so if and only if nobody resigns, or leaves while logged in, a game recorded as won by that very client with the packet sent. The recorded winner itself may have changed: see `Outcomes.OutcomesExactly`. |
| `Winners.ResignationScored` | src/invitation.c:245-249 | A sent resignation posts the winner the game records afterwards if and only if the resigner had not won it; it posts the outcome the game already had if and only if the other had won it, so never a draw; and the recorded winner stays if and only if there was one. |
| `Winners.HonestRun` | src/client.c:118-140 | Over runs of such honest steps, whatever else is lost, the one result carries the winner recorded at the end. |
| `Winners.CarefulScores` | src/client.c:925-944 | So it is over every run of careful steps, with no condition on any other packet. |
| `Winners.ResultsNameWinners` | src/client.c:118-140 | In every run of honest steps a posted result names the player of the client that plays First, then that of the client that plays Second, and is 1, 2 or 0 exactly as First, Second or nobody is recorded as the winner. |
| `Winners.MovePays` | src/client.c:925-932 | Once a last move and its packets are through, the player of the client whose role won has lost no points and the other gained none; between equals the win is worth sixteen points and a draw none; nobody else's rating changes. |
| `Winners.ResignPays` | src/client.c:807-812 | The same after a sent resignation by one who has not won the game. |
| `Winners.DrawLevels` | src/player.c:185-194 | With a power that is at least one for differences from zero up and at most one for those from zero down, a draw between two registered players never moves points from the lower-rated to the higher. |
| `Outcomes.OutcomesExactly` | src/client.c:854-947 | Over every state a run reaches, a step keeps the winner of every finished game if and only if it neither resigns, nor leaves, the accepted invitation of a drawn one nor makes a move that completes, in one that is won, a line of the other side that comes before every line of the winner in the scan. |
| `Outcomes.JudgedRun` | src/game.c:269-353 | In every run an unresigned game records the first line of the scan as its winner and is over exactly when there is one or the board is full, and a game whose invitation has left the lists is over. |
| `Outcomes.FaithfulRun` | src/client.c:118-140 | Over runs whose steps meet that condition and the one of `Winners.WinnersExactly`, whatever is lost, the one result of an accepted invitation that has left the lists is the outcome with which its game first ended. |
| `Outcomes.CarefulOutcomes` | src/client.c:925-944 | So it is over every run of careful steps. |
| `Stories.StoryRun` | src/client.c:555-938 | In every state reached by careful steps whose packets are all sent, what each end was told of each invitation is exactly INVITED (REVOKED or MOVED* then ENDED or RESIGNED) at the target and DECLINED or ACCEPTED MOVED* (ENDED or RESIGNED) at the source, one MOVED per mark of the other side; the scores of `Winners.CarefulScores` fit these stories. |
| `Stories.StoryNext` | src/client.c:555-938 | Each single careful step whose packets are sent keeps those stories. |
| `Losses.CarefulStories` | src/client.c:555-938 | Over every careful run, whatever other packets are lost: what each end was told of an invitation is its story with gaps, a part of it in order, and the scores are those of the story. |
| `Losses.NextLossy` | src/client.c:555-938 | A careful step and the same step with nothing lost lead from states that differ in lost packets only to states that do. |
| `Stories.ResignedStory` | src/client.c:770-829 | A resignation posts exactly one result, won by the opponent whichever side was source, and tells the opponent alone. |
| `Stories.MovedStory` | src/client.c:854-947 | A move tells the opponent once; the last one tells both the recorded winner and posts it once. |
| `Stories.SeatsAgree` | src/client.c:118-140 | Whichever end acts, the result is posted with the player of the first role first. |
| `Payloads.FirstBoardShows` | src/client.c:720-738 | The board sent on acceptance is the empty one with X to move, to the letter. |
| `Payloads.AcceptedSays` | src/client.c:722-738 | The ACCEPTED packet goes to the source and shows that board exactly when the source moves first; otherwise it has no payload. |
| `Payloads.InvitedSays` | src/client.c:561-568 | The INVITED packet goes to the client of the name and has the inviter's name and the role to play. |
| `Payloads.MovedSays` | src/client.c:890-897 | The MOVED packet goes to the opponent and shows the board that the move has left and who is to move. |
| `Scoring.FairRun` | src/player.c:146-200 | In every run, whatever was lost, an invitation has exactly one result if it was accepted and has left the lists and none otherwise; every rating is what replaying the posted results from 1500 gives; and the ratings' total is within the number of results of 1500 for each player. |
| `Scoring.FairNext` | src/client.c:118-140 | Each single step keeps that. |
| `InvitationIds.RunIds` | src/client.c:187-204 | In every run each packet carries the ID under which its recipient's own list holds or last held the invitation, and all packets to one client about one invitation carry the same ID. |
| `InvitationIds.StepIds` | src/client.c:601-923 | The packets of each step are addressed under an ID that the recipient's list holds before or after it. |
| `InvitationIds.WireExact` | src/includeme.c:17-21 | An ID sent in the 8-bit field leads back to the same invitation if and only if it is below 256. |
| `InvitationIds.WireFaithful` | src/client.c:160-225 | If no client ever holds more than 256 invitations at once, every invitation in every reachable state is found again under its wire ID. |
| `InvitationIds.RunBelow` | src/client.c:142-172 | An issued ID never exceeds the number of invitations held, so IDs stay below any bound on list lengths. |
| `Steps.RevokeKeeps` | src/client.c:591-627 | Revoking: when it fails, when it closes, how many references remain for every outcome of the send and either side, the packet and its ID; only this invitation changes. |
| `Steps.DeclineKeeps` | src/client.c:646-675 | Declining: the same; a failed send is only reported. |
| `Steps.AcceptKeeps` | src/client.c:700-753 | Accepting succeeds only for the target of an open invitation, which gets a new game of its own; it keeps the invariant and changes no other invitation, and otherwise nothing changes. |
| `Steps.ResignKeeps` | src/client.c:770-829 | Resigning: closed and resigned, and when the packet is sent also scored for the opponent and out of both lists; otherwise still in both. |
| `Steps.MoveKeeps` | src/client.c:854-947 | Moving: the game after the move, the packets sent for every combination of outcomes, and, exactly when the game is over and all are sent, the posted result and the removal from both lists. |
| `Steps.SettleKeeps` | src/client.c:925-944 | The end of a game: one effective result between two different players, and no reference left. |
| `References.RemoveKeeps` | src/client.c:490-520 | Removing an invitation from one list keeps all counts exact, through the cascade to its game and its two clients. |
| `References.RemoveBothKeeps` | src/client.c:612-624 | Removal from both lists succeeds exactly when the two clients differ and both hold the invitation. |
| `References.RequestResolves` | src/client.c:206-225 | An ID that resolves leads to a live invitation that names the asking client. |
| `Joining.InviteKeeps` | src/server.c:146-201 | An invitation is made exactly when the name belongs to another logged-in client and the role is a player's; it is then open, in both lists, the other role is the inviter's, the ID returned is the inviter's, and the invariant is kept; otherwise nothing changes. |
| `Joining.MadeKeeps` | src/client.c:539-572 | A new invitation is in both lists and its count is two; everything else is as it was. |
| `Joining.LoginKeeps` | src/client.c:289-324 | Logging in keeps one client per player and exact counts of players. |
| `Joining.LoginExactly` | src/server.c:45-102 | The result is -1 exactly for a client that has a player or an empty name, and 1 otherwise, whether or not the login succeeds; a client without a player is logged in exactly when the name is not empty and no registered client has a player of that name; a new name starts at 1500 points and no other rating changes. |
| `Joining.ConnectKeeps` | src/client_registry.c:79-104 | Connecting keeps the invariant. |
| `Joining.ConnectExactly` | src/client_registry.c:79-104 | A connection is registered, behind all others, exactly while fewer than 64 are. |
| `Leaving.LogoutOneKeeps` | src/client.c:348-364 | A node's turn leaves its invitation closed or out of the list and no other changed. |
| `Leaving.LogoutAllKeeps` | src/client.c:348-364 | The loop over the saved nodes deals with every entry, only closes invitations, and spares all it does not visit. |
| `Leaving.ExitKeeps` | src/client_registry.c:119-151 | A departure keeps the invariant and takes the client out of the registry. |
| `Leaving.LogoutExactly` | src/client.c:338-370 | Logging out succeeds exactly for a logged-in client, which is then out, keeps its player field and has given one reference of its player back. |
| `Leaving.UnregisterExactly` | src/client_registry.c:119-151 | Unregistering succeeds exactly for a registered client, which has given the registry's reference back, and the others stay. |
| `Operations.RevokeInvitation` | src/client.c:591-627 | On the objects, client_revoke_invitation changes the whole state as the model says; it frees nodes only by unlinking. |
| `Operations.DeclineInvitation` | src/client.c:646-675 | The same for client_decline_invitation. |
| `Operations.AcceptInvitation` | src/client.c:700-753 | The same for client_accept_invitation, with the text returned to a target that moves first. |
| `Operations.MakeInvitation` | src/client.c:539-572 | The maker's own reference, the two additions and the release at the end amount to the model's one step. |
| `Operations.Invite` | src/server.c:146-201 | process_invite, including the reference of creg_lookup taken and given back. |
| `Operations.ResignGame` | src/client.c:770-829 | The same for client_resign_game, for an invitation between two different clients. |
| `Operations.MakeMove` | src/client.c:854-947 | The same for client_make_move. |
| `Operations.FinishGame` | src/client.c:908-946 | Its end once the game is over. |
| `Operations.RegisterClient` | src/client_registry.c:79-104 | creg_register of an admitted thread adds one client at the end of the registry, or nothing when it is full. |
| `Operations.ClientLogin` | src/client.c:289-324 | A login succeeds exactly when the client is logged out and no registered client has a player of the name; the references taken for the scan are all given back. |
| `Operations.Login` | src/server.c:45-102 | process_login, with the reference of preg_register taken and given back. |
| `Operations.LogoutTurn` | src/client.c:348-364 | One pass of the loop does what the model says; the saved next node is still in the list, and the nodes after it are those that were after it before. |
| `Operations.Logout` | src/client.c:338-370 | The whole traversal, over a list that shrinks under it, visits every entry once and stops; the state is the model's. |
| `Operations.Unregister` | src/client_registry.c:119-151 | creg_unregister of a client that has logged out. |
| `Operations.EndService` | src/server.c:374-471 | The end of a service thread. |
| `Serving.Serve` | src/server.c:354-476 | Any request of a client that may make it takes the objects from one state to the next exactly as its step takes the model, or is refused and changes nothing. |
| `Serving.RefusedIsIdle` | src/server.c:45-201 | A refused request is one whose step changes nothing, whatever new objects it is given. |
| `Serving.ServeAll` | src/server.c:354-476 | A new server that is asked any sequence of requests goes through a history of states, one a request: each request whose client may make it is served by its step, any other leaves the state alone; the objects end in the last of these states, which a run reaches, so every theorem about runs is about them. |
| `Serving.AsksExactly` | src/server.c:354-476 | A client may make a request exactly when a step for it is enabled, but for the newness of the objects it creates. |
| `Serving.LostExactly` | src/client.c:348-364 | The lost packets of a departure are those about the list entries with the given IDs. |
| `Worlds.World.InvUnref` | src/invitation.c:108-127 | The last reference releases the game's and both clients' references; earlier ones nothing. |
| `Worlds.World.RemoveInvitation` | src/client.c:490-520 | First node unlinked, ID freed, reference dropped; the ID or -1 is returned. |
| `Worlds.World.AddInvitation` | src/client.c:465-478 | Least free ID, node at the head, one more reference. |
| `Worlds.World.NewInvitation` | src/invitation.c:53-77 | A new open invitation with one reference, and one more on each client. |
| `Worlds.World.AcceptInvitation` | src/invitation.c:200-213 | Only an open invitation is accepted, and gets a new game. |
| `Worlds.World.Close` | src/invitation.c:229-261 | Closing succeeds exactly when allowed, resigns the game of an accepted invitation, and changes no other object. |
| `Worlds.World.ApplyMove` | src/game.c:113-133 | A move changes one game and no other object. |
| `Worlds.World.PostResults` | src/client.c:118-140 | The right player first; nothing when a player is missing. |
| `Worlds.World.LookupClient` | src/client_registry.c:163-190 | The first registered client of a name, with one more reference. |
| `Worlds.World.AllPlayers` | src/client_registry.c:203-232 | The players of all logged-in registered clients in order, each with one more reference. |
| `Worlds.World.EnrollPlayer` | src/player_registry.c:78-118 | A known name gives its player and a new one a new player, with the caller's reference. |
| `Worlds.World.LeavePlayer` | src/client.c:365-367 | The player's reference is dropped and the client logged out, its player field kept. |
| `Worlds.World.PoolIsFree` | src/client.c:174-185 | A client without invitations has usage zero and every slot free. |
| `Clients.IdPool.GetAvailableId` | src/client.c:142-172 | The least ID not in use, whatever doublings have happened; slots stay -1 exactly for the IDs in use and the usage their number. |
| `Clients.IdPool.PurgeId` | src/client.c:174-185 | The ID is free again and no other slot changes. |
| `Clients.InviteList.Unlink` | src/client.c:490-520 | The first node holding the invitation goes, all others stay in order. |
| `Clients.InviteList.GetInvitation` | src/client.c:206-225 | The invitation of the first node with the ID, or null. |
| `Clients.InviteList.GetInvitationId` | src/client.c:187-204 | The ID of the first node holding the invitation, or -1. |
| `Clients.Client.AddInvitation` | src/client.c:465-478 | Pool and list agree afterwards. |
| `Clients.Client.RemoveInvitation` | src/client.c:490-520 | Pool and list agree afterwards. |
| `Clients.LeastFreeBound` | src/client.c:160-168 | A fresh ID is at most the number of IDs in use. |
| `Clients.WithoutEntries` | src/client.c:490-520 | Exactly the entry of the invitation is gone, and all others keep their IDs. |
| `Clients.Invitation.Accept` | src/invitation.c:200-213 | Succeeds exactly from OPEN. |
| `Clients.Invitation.Close` | src/invitation.c:229-261 | Succeeds exactly from OPEN with the null role and no game, or from ACCEPTED with a player's role, and then resigns the game. |
| `ClientRegistries.ClientRegistry.Remove` | src/client_registry.c:119-151 | The shift loop leaves the others in place and frees one place exactly when the client was there. |
| `ClientRegistries.LeftKeepsOrder` | src/client_registry.c:125-131 | The others stay, each once and in their original order. |
| `Admission.AlwaysOrderly` | src/client_registry.c:79-151 | In every interleaving of checks, semaphore waits, locked inserts and departures split at the post, free places, threads holding one, registered clients and a place about to be posted add up to 64, and the array is those that arrived and have not gone, in order of arrival. |
| `Admission.InsertInBounds` | src/client_registry.c:92-101 | Whenever a thread inserts, the index is below 64, although the length was checked without a lock. |
| `Admission.WaitsExactlyWhenFull` | src/client_registry.c:92-93 | A thread past the check is held up exactly while all 64 places are taken. |
| `Admission.AdmitsExactly` | src/client_registry.c:79-104 | A new client passes the check exactly when fewer than 64 are registered and the registry is not shut down; with nobody in its way it is then registered behind all others exactly when a place is free. |
| `Admission.ClosedForGood` | src/client_registry.c:265-278 | Once shut down the registry stays so in every run. |
| `Admission.ShutOut` | src/client_registry.c:83-91 | A client that has not passed the check when the registry is shut down is registered in no later state of any run. |
| `PlayerRegistries.RosterGrows` | src/player_registry.c:78-118 | Over any registrations names stay unique and the list only grows at its end. |
| `PlayerRegistries.SamePlayerEver` | src/player_registry.c:78-118 | A name once registered yields the same player ever after. |
| `PlayerRegistries.PlayerRegistry.Register` | src/player_registry.c:78-118 | The linked list does that: the found player gets a reference, a new one is appended with two. |
| `PlayerRegistries.PlayerRegistry.Fini` | src/player_registry.c:49-62 | Exactly one reference of every registered player is dropped. |
| `Games.EveryPlay` | src/game.c:113-153 | Over all attempts to move and resign: marks alternate, never two winners, the owner of a line moved last, at most nine moves. |
| `Games.ApplyKeeps` | src/game.c:113-133 | A move on an unfinished game keeps these facts and marks one cell of the mover. |
| `Games.ResignByKeeps` | src/game.c:143-153 | Resigning an unfinished game succeeds and the other role wins. |
| `Games.JudgeIsExact` | src/game.c:269-353 | game_is_over is idempotent and says over exactly on a line, a full board or a resignation. |
| `Games.LinesOnTheBoard` | src/game.c:272-337 | The lines are the three rows, the three columns and the two diagonals, and no others. |
| `Games.ScanOrder` | src/game.c:272-337 | Of several owned lines the first counts: rows from the top, columns from the left, the falling diagonal, the rising one. |
| `Games.AcceptsExactly` | src/game.c:113-133 | In an unfinished game a move is accepted exactly on an empty cell and from the player whose turn it is by the number of marks, X when both have as many. |
| `Games.CodeNames` | include/game.h:44-48 | The result codes are 0 for nobody, 1 for the first player, 2 for the second. |
| `Games.ResignedIsFinal` | src/game.c:113-153 | After a resignation no move is accepted and the winner never changes. |
| `Games.ResignAfterEnd` | include/game.h:92-100 | The documentation has resigning a finished game fail; it succeeds exactly when the game was drawn. |
| `Games.ResignOfDrawnGameSucceeds` | src/game.c:143-153 | Nine moves from the start lead to a drawn game whose resignation succeeds and makes the other role its winner. |
| `Games.MoveAfterEnd` | src/game.c:113-133 | A move made after a game was won changes its winner if and only if it completes a line of the other side that comes before every line of the winner in the scan, whether or not both sides own lines by then. |
| `Games.Game.IsOver` | src/game.c:269-353 | The scan in its order over rows, columns, diagonals and empty cells decides as the specification does. |
| `Games.Game.ApplyMove` | src/game.c:113-133 | Accepted exactly when the role is on the move and the cell empty. |
| `Games.Game.Resign` | src/game.c:143-153 | The resignation of one role. |
| `GameText.StateRoundTrip` | src/game.c:165-261 | The 40 characters determine the board and whether X is to move. |
| `GameText.StateShows` | src/game.c:165-261 | X stands for the first player and O for the second, each cell where its row and column put it, and the last line names who is to move. |
| `GameText.UnparseState` | src/game.c:165-261 | Everything written, terminator included, stays inside the 50-byte buffer. |
| `GameText.ParseIsExact` | src/game.c:383-438 | Exactly which strings are moves, and which. |
| `GameText.MoveRoundTrip` | src/game.c:451-460 | The text of a move parses back to it. |
| `GameText.OutOfTurn` | include/game.h:140-142 | The documentation has a player not on the move rejected by the parser. Such a text is rejected exactly when its suffix names a role that is not on the move, which in a resigned game is either, and any other such text changes no game. |
| `Players.Drift` | src/player.c:183-194 | One result moves the sum of the ratings by at most one, and never up when both exact values are not negative. |
| `Players.ConservedExactly` | src/player.c:193-194 | Exactly when truncation loses or gains a point. |
| `Players.MovesAreBounded` | src/player.c:183-194 | No rating moves by more than 32, the winner's never falls, the loser's never rises. |
| `Players.DrawHelpsTheWeaker` | src/player.c:183-194 | A draw never lowers the weaker nor raises the stronger. |
| `Players.OrderDoesNotMatter` | src/player.c:133-142 | The second player's rating is the one of the documented formula: swapping the players and mirroring the result gives the same two ratings, truncation included. |
| `Players.WorthOfAResult` | src/player.c:139-142 | Winning instead of losing is worth exactly 32 points before truncation, and a draw half of that, against any opponent. |
| `Players.WorthOfAWin` | src/player.c:135-142 | A win against an opponent stronger by a factor q is worth 32q/(1+q) points before truncation. |
| `Players.EvenMatch` | src/player.c:183-194 | Between equals the winner gets 16 points, the loser loses 16, and a draw changes nothing, truncation included. |
| `Players.PostResult` | src/player.c:146-200 | The two ratings, or nothing when a player is missing, both are one, or the code is unknown. |
| `Protocol.Framing` | src/protocol.c:18-156 | Whatever writes do and whenever they break off, and however reads are split, the packets received are exactly those sent successfully, in order, and every byte is consumed. |
| `Protocol.FramingWhole` | src/protocol.c:18-156 | If the system always moves at least a byte, all packets arrive. |
| `Protocol.SendSucceeds` | src/protocol.c:46-60 | Then a packet is sent successfully if and only if its size is zero exactly when it has no payload; otherwise just its header goes out. |
| `Protocol.ReceiveCut` | src/protocol.c:94-156 | A packet cut short is never taken for a whole one. |
| `Protocol.HeaderRoundTrip` | include/protocol.h:125-132 | The wire form of a header loses nothing. |
| `Protocol.ArrivesIntact` | src/includeme.c:7-29 | A header arrives as asked for if and only if every argument fits its field, and so does each of its two times. |
| `Protocol.HeaderLayout` | include/protocol.h:125-132 | Sixteen bytes: type, ID, role, the size at 4, the times at 8 and 12, each with its most significant byte first, and zeros between. |
| `Protocol.Socket.SendPacket` | src/protocol.c:18-77 | The bytes written and the result for every behaviour of write; both loops end. |
| `Protocol.Socket.RecvPacket` | src/protocol.c:94-156 | The header, payload, terminator, result and bytes consumed for every behaviour of read; both loops end. |

## Left out

- Sockets, signals, option parsing, `main.c`, thread creation, timestamps and debug output: plumbing; a send is a parameter, a timestamp a header field.
- `src/csapp.c`: textbook wrappers that the session core does not use.
- Failure of allocation and of mutex initialisation, and locks left held on those paths: allocation succeeds.
- Re-initialisation of the semaphores at every connection (`is_sem_init` is never set): they are taken as initialised once, as intended.
- Interleaving inside the traversal of `client_logout`: it is one step, because the saved next node is not protected from other threads.
- The claim that only LOGIN is honoured before a successful login: the service loop does not ensure it, so being logged in is a condition on a step.
- The claims that `creg_wait_for_empty` returns only when the registry is empty and that nobody is registered after shutdown: posts accumulate, and the flag is read without the lock.
- Operations.ResignGame: requires that the invitation's two clients differ, which `process_invite` ensures and the invariant keeps.
- Operations.MakeInvitation: requires two different clients, which `process_invite` ensures; `client_make_invitation` alone would put one invitation into one list twice.
- Operations.RegisterClient: leaves out the wait for a place and the shutdown flag, which `Admission` models.
- Operations.Unregister: is of a client that is logged out, as at the end of a service thread; `creg_unregister` would log out another one first.
- Worlds.World.AddInvitation: requires that the invitation is not in the list yet, as it never is where the server adds one; Clients.Client.AddInvitation likewise.
- Clients.Client.AddInvitation: requires that the invitation is not in the list yet.
- Clients.IdPool.PurgeId: requires that an ID within the pool is in use, as the ID of a removed node is; the code would count a free one down too.
- Operations.ClientLogin: `client_login` keeps its semaphore when the client is already logged in; this is not modelled, since `process_login` turns such a client away before.
- Worlds.World.RemoveInvitation: gives the ID back before dropping the reference, the code after, so it does not show that the code may use the client after releasing it; when it does and when it does not is `Runs.MoveReleasesExactly`, `Runs.CloseReleasesNoClient` and `Runs.PostReleasesNoClient`, and `FailingRuns.LoserOutlastsWinner` is a run in which it does.
- Runs.MoveReleasesNoClient: is about an accepted invitation; in the game of one that was closed without leaving the lists the code can release the opponent on the way, exactly as `Runs.MoveReleasesExactly` says.
- Worlds.World.ClientUnref: does not start the log-out of a client that is released while logged in, because such a client is registered and so never released.
- Protocol.HeaderRoundTrip: assumes the usual alignment of the header struct, 16 bytes with zero padding.
- Protocol.Socket.RecvPacket: the caller always passes a place for the payload; after a failure that place is not looked at.
- Players.PostResult: the power of ten is any positive real, so floating-point rounding is not modelled; ratings are unbounded integers.
- ACK and NACK responses, the text of the USERS response, and payloads with embedded NUL characters.
- Stories.StoryRun: is about runs in which all packets are sent; `Losses.CarefulStories` has the gaps that lost packets leave.
- `process_revoke` and the other handlers that only pass an ID on and answer.
