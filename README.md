# Aventura Matemática — a verified model of the game core

Aventura Matemática is a children's arithmetic game. A player registers and logs in. They
choose an avatar, a difficulty (`facil`, `medio`, `dificil`) and a game mode. Then they
answer generated arithmetic questions, in a quiz screen or in a balloon-shooting screen,
against a countdown. Correct answers earn points, wrong answers and timeouts cost lives, and
the best score and the level are kept in the profile and shown in a ranking.

This project models that core in Dafny and proves properties of the model:

- `QuestionGen` (`question_gen.dfy`) is the question generator `gerarQuestao`. It is one
  method, as both game screens carry copies of it that are identical up to an unreachable
  `default` branch in the balloon screen's operator switch. Each `Math.random()` call is an
  explicit draw `u` with `0 <= u < 1`. The distractor loop reads one draw per round, and the
  random-comparator sort is an explicit permutation.
- `Scoring` (`scoring.dfy`) holds the points, time bonus, level and best-score rules that
  both games share.
- `Leaderboard` (`leaderboard.dfy`) is a stable descending sort and truncation, since
  JavaScript's `Array.prototype.sort` is stable. Both leaderboards are instances of `Top`.
- `UserStore` (`user_store.dfy`) is the application provider, a class. Its fields are the
  two storage keys and the in-memory session. Storage holds `Absent`, `Corrupt` (text
  `JSON.parse` rejects) or `Present(value)`.
- `Ranking` (`ranking.dfy`) is the top-ten ranking page.
- `QuizGame` (`quiz_game.dfy`) is the quiz screen, a class `Session` with the five-place
  ranking.
- `BalloonGame` (`balloon_game.dfy`) is the balloon screen, a class `Game` with
  `gerarBaloes` as a method.
- `Customisation` (`customisation.dfy`) is the three-tab customisation wizard, a class
  `Wizard`.
- `Forms` (`forms.dfy`) holds the login and registration schemas and the outcome of each
  submission.

Timers are modelled as a queue. Each screen schedules its `setTimeout` continuations into
a FIFO queue `pending`, and an explicit event (`Continuar`, `Disparar`) runs the oldest
one. A continuation carries the values its closure captured when it was scheduled. In the
quiz screen these are the player as they were before the answer. In the balloon screen
they are the question index and the score before the answer. So the points of a correct
answer to the last balloon question are not among the saved score, and the contracts say
so. Continuations survive a restart, as timers do.

Where the code and the description of the system differ, the model follows the code:

- The quiz screen never changes its configuration (15 s, 10 questions, easy tier). Only the
  balloon screen reads the difficulty table.
- The balloon screen's countdown does not check whether the question was already answered.
  A timeout after a hit costs a life too.
- A successful registration goes on to the menu, like a successful login.

The balloon screen's countdown is an interval whose closure captured the lives, score and
question index when it last started (a new question, a resume from pause). A timeout
decides between the end of the game and the next question on those captured values, so a
wrong hit at 2 lives followed by a timeout still goes on to the next question, at 0 lives.

The store keeps the session in agreement with its record in the stored list (`Synced`):
ids are unique and the session is the record with its id. Login, registration with an id
no record has, profile updates and logout keep that agreement, so a saved score never
lowers the record the ranking page and the next login read.

## Model

| member | source | states |
|---|---|---|
| QuestionGen.Pick | components/jogo-matematica.tsx:62-63 | `Math.floor(u * n)` lies in `[0, n)` for every draw |
| QuestionGen.MaxNum | components/jogo-matematica.tsx:57-59 | the operand bound 10, 20 or 50 for the tier |
| QuestionGen.PickOperation | components/jogo-matematica.tsx:66-76 | on the easy tier only `+` or `-` is drawn |
| QuestionGen.PickOperationReaches | components/jogo-matematica.tsx:70-76 | every operator the tier allows is drawn for some value of the draw |
| QuestionGen.Evaluate | components/jogo-matematica.tsx:95-109 | the operator switch applied to the two operands |
| QuestionGen.Candidate | components/jogo-matematica.tsx:119-127 | one round's distractor: answer + offset in -5..4 for `+` and `-`, -2..2 for `/`, and `r + floor(u*r/2) - r/4` for `*` |
| QuestionGen.StuckCandidates | components/jogo-baloes.tsx:109-127 | for a division with quotient 1 or a product from 1 to 4, at most two admissible candidates exist |
| QuestionGen.ThreeDistractors | components/jogo-matematica.tsx:115-133 | for every other answer the generator can produce, three draws give three distinct admissible candidates, and on those draws the loop completes (`HasThreeDistractors`) |
| QuestionGen.ThreeForceFour | components/jogo-matematica.tsx:115-133 | options that start with the answer and contain every admissible candidate of the draws hold four values once three of those candidates differ |
| QuestionGen.MulCandidateQuarters | components/jogo-baloes.tsx:117-118 | a product's distractor is a multiple of 0.25, and a whole number exactly when the product is divisible by 4 |
| QuestionGen.ExactDivision | components/jogo-matematica.tsx:88-92 | `n2 * k` divided by `n2` leaves remainder 0 and gives `k` |
| QuestionGen.AnswerNonNegative | components/jogo-matematica.tsx:94-109 | a well-formed question's answer is never negative and lies in its operator's range, so the timeout answer -1 is always wrong |
| QuestionGen.Shuffle | components/jogo-matematica.tsx:135-136 | the shuffled options have the same length and elements and stay duplicate-free |
| QuestionGen.CollectOptions | components/jogo-matematica.tsx:111-133 | the answer first and then distinct, positive distractors different from the answer, each from a draw; complete exactly when four options are collected; when not complete, every draw's candidate was inadmissible or already taken; complete whenever three draws give distinct admissible candidates; a stuck answer is never complete |
| QuestionGen.GerarQuestao | components/jogo-matematica.tsx:55-146 | operands in `[1, 10/20/50]`; operands swapped for `-`, so the answer is at least 0 and 0 exactly when the draws are equal; division `n1 = n2 * k` with `k` in 1..10 and answer `k`; on completion four distinct options, one the answer and the others positive distractors; complete whenever the draws hold three distinct admissible candidates, and never for a stuck answer; the balloon screen's copy (components/jogo-baloes.tsx, lines 47 to 140) is the same generator |
| Scoring.BasePoints | components/jogo-matematica.tsx:241 | 10, 20 or 30 points for the easy, medium or hard tier |
| Scoring.TimeBonus | components/jogo-matematica.tsx:241-243 | equals `Math.floor(tempo * 0.5)`, and lies between 0 and `tempo` |
| Scoring.Points | components/jogo-baloes.tsx:369-372 | base points for the tier plus the time bonus, between the base and the base plus `tempo` |
| Scoring.PointsMonotone | components/jogo-matematica.tsx:241-243 | more seconds left never earn fewer points, and a harder tier earns more |
| Scoring.EasyAnswerWithEighteenSeconds | components/jogo-baloes.tsx:369-372 | an easy answer with 18 s left is worth 19 points |
| Scoring.LevelFor | components/jogo-baloes.tsx:452 | the level `best div 100 + 1` is at least 1 and brackets the best score between `(level-1)*100` and `level*100` |
| Scoring.LevelMonotone | components/jogo-baloes.tsx:452 | a higher best score never gives a lower level |
| Scoring.BestScore | components/jogo-baloes.tsx:447-448 | the best score is at least both the previous and the current score and equals one of them |
| Leaderboard.Insert | app/ranking/page.tsx:52 | inserting into a sorted list gives a sorted permutation of the list plus the element |
| Leaderboard.SortDesc | app/ranking/page.tsx:52 | the result is a non-increasing permutation of the input |
| Leaderboard.SortSorted | app/ranking/page.tsx:52 | the sort is stable: a sorted input is returned unchanged |
| Leaderboard.SortSnoc | components/jogo-matematica.tsx:263-266 | sorting a sorted list with one element appended inserts that element |
| Leaderboard.Top | app/ranking/page.tsx:52-53 | sort then slice: length `min(n, |s|)`, non-increasing, a sub-multiset of the input, all of it when `n >= |s|`, and no omitted element has a larger key than the last one kept |
| Ranking.ToEntry | app/ranking/page.tsx:44-51 | the name falls back to the username, the avatar to the stock image, the score to 0 and the level to 1 |
| Ranking.Entries | app/ranking/page.tsx:43-51 | one entry per stored user, in the same order, each made by `ToEntry` |
| Ranking.CarregarRanking | app/ranking/page.tsx:35-60 | empty for an absent or unreadable list; otherwise `min(10, |users|)` entries in non-increasing score order, each one made from a stored user, and no omitted user scores above the last entry |
| UserStore.Merge | components/providers.tsx:135 | the spread `{...p, ...patch}` takes each present patch field and keeps the rest |
| UserStore.MergeIdempotent | components/providers.tsx:133-154 | applying the same patch twice equals applying it once |
| UserStore.FindCredentials | components/providers.tsx:67 | returns the first record with this username and password, and none exactly when no record matches |
| UserStore.NewRecord | components/providers.tsx:104-110 | the record of id, name, age, username and password, with no avatar, choices, score or level |
| UserStore.UsernameTaken | components/providers.tsx:93-97 | some record of the list has the username |
| UserStore.RegisterInto | components/providers.tsx:87-114 | no list when a readable list has the username; otherwise the readable list, or an empty one, with the record appended |
| UserStore.RegisterKeepsUnique | components/providers.tsx:90-114 | registration keeps usernames unique and only appends to a readable list |
| UserStore.RegisterTwiceFails | components/providers.tsx:93-97 | after a registration, a second one with the same username fails |
| UserStore.RegisterThenLogin | components/providers.tsx:104-114 | the credentials just registered log in to the new record |
| UserStore.FirstWithId | components/providers.tsx:144 | `findIndex` returns the first record with the id, and none exactly when there is none |
| UserStore.UpdateById | components/providers.tsx:144-148 | only the first record with the id is merged with the patch; the list is unchanged when no id matches |
| UserStore.UpdateKeepsUnique | components/providers.tsx:144-148 | an update changes no username or password, so usernames stay unique |
| UserStore.UpdateKeepsIds | components/providers.tsx:144-148 | an update keeps the length of the list and the id of every record |
| UserStore.RecordOf | components/providers.tsx:144 | a profile exactly when a readable list has a record with the id, and then one with that id |
| UserStore.FirstWithUniqueId | components/providers.tsx:144 | in a list with unique ids, `findIndex` for a record's id finds that record |
| UserStore.LoginSyncs | components/providers.tsx:61-82 | logging in to a record of a list with unique ids puts the session in agreement with its record |
| UserStore.RegisterSyncs | components/providers.tsx:103-120 | registering with an id no record has keeps ids unique and makes the new session agree with its record |
| UserStore.UpdateSyncs | components/providers.tsx:133-154 | merging the same patch into the session and into the record with its id keeps the two in agreement |
| UserStore.Store.constructor | components/providers.tsx:41-43 | storage as found, no session |
| UserStore.Store.CarregarSessao | components/providers.tsx:46-58 | a readable stored session is restored as logged in, and an unreadable one is removed |
| UserStore.Store.Login | components/providers.tsx:61-82 | (`LoginDone`) true exactly when a readable list holds a matching record; the session and the "usuario" key become the first such record without its password, the list stays; on false nothing changes; the store stays `Synced` |
| UserStore.Store.Registrar | components/providers.tsx:85-123 | (`RegisterDone`) false with nothing changed when a readable list already has the username; otherwise exactly one record is appended (to an empty list when unreadable) and the new user is logged in; with an id no record has, the store stays `Synced` |
| UserStore.Store.Logout | components/providers.tsx:126-130 | the session, the flag and the "usuario" key are cleared, and the list stays; the store stays `Synced` |
| UserStore.Store.AtualizarUsuario | components/providers.tsx:133-154 | (`Updated`) nothing without a session; otherwise the patch is merged into the session, its key and only the record with the session's id; the store stays `Synced` |
| QuizGame.UpdateRanking | components/jogo-matematica.tsx:263-266 | append, sort, keep at most 5: non-increasing, of length `min(5, |prev|+1)`, drawn from the old ranking and the player |
| QuizGame.InsertRanking | components/jogo-matematica.tsx:271-274 | inserting the player into the sorted ranking and keeping 5 gives a non-increasing list of the same length |
| QuizGame.InsertRankingIsUpdate | components/jogo-matematica.tsx:263-266 | on a sorted ranking the insertion equals the sort-and-slice |
| QuizGame.PlayerRanked | components/jogo-matematica.tsx:263-266 | with fewer than 5 entries the player always enters; a player left out faces 5 entries, none scoring below them |
| QuizGame.InitialRankingSorted | components/jogo-matematica.tsx:178-182 | the bot ranking the screen starts with is sorted |
| QuizGame.EndsGame | components/jogo-matematica.tsx:259-267 | a continuation ends the game after a wrong answer with at most one life left before it, or after the last question |
| QuizGame.Session.constructor | components/jogo-matematica.tsx:151-182 | the fixed configuration (easy tier, 15 s, 10 questions), which `Valid` keeps for the whole session; the initial player and bot ranking; nothing started |
| QuizGame.Session.IniciarJogo | components/jogo-matematica.tsx:214-228 | started, index 0, score 0, three lives, question 1, full clock, no selection |
| QuizGame.Session.Responder | components/jogo-matematica.tsx:231-258 | accepted only with a question shown and nothing selected; a correct answer adds `Points`, a wrong one subtracts exactly one life; a continuation capturing the pre-answer player is scheduled |
| QuizGame.Session.Tick | components/jogo-matematica.tsx:195-207 | while running, over 1 s decrements the clock; at 1 s or less it stops at 0 and, with nothing selected and a question shown, submits -1, which costs a life; with an answer already given or no question, player, schedule and verdict stay |
| QuizGame.Session.Continuar | components/jogo-matematica.tsx:258-285 | the game ends (and the pre-answer player enters the ranking) after a wrong answer at one life or less, or at the last question; otherwise the next question is index + 2 with a full clock and no selection |
| QuizGame.Session.Terminar | components/jogo-matematica.tsx:262-266 | the game is over and the player is entered into the ranking |
| QuizGame.Session.TogglePause | components/jogo-matematica.tsx:290-292 | only the pause flag flips |
| QuizGame.Session.VoltarAoMenu | components/jogo-matematica.tsx:306-309 | back to the start screen with the rest of the state kept |
| BalloonGame.ConfigFor | components/jogo-baloes.tsx:195-204 | easy 20 s and 8 questions, medium 15 s and 10, hard 12 s and 12 |
| BalloonGame.HarderIsShorterAndLonger | components/jogo-baloes.tsx:195-204 | a harder tier gives less time and more questions |
| BalloonGame.BalloonValue | components/jogo-baloes.tsx:257-266 | balloon i shows option i, or a whole number below 100 drawn for padding |
| BalloonGame.BalloonsFor | components/jogo-baloes.tsx:257-275 | exactly 4 balloons; balloon i has id i, colour `i mod 8`, option i when there is one and a whole number below 100 otherwise |
| BalloonGame.GerarBaloes | components/jogo-baloes.tsx:250-278 | the padding loop and the map produce `BalloonsFor` |
| BalloonGame.BalloonsShowOptions | components/jogo-baloes.tsx:250-278 | for a generated question the balloons carry its options in order, in four different colours, and exactly one carries the answer |
| BalloonGame.AfterWrong | components/jogo-baloes.tsx:401-414 | a wrong answer schedules the end of the game exactly when the lives before it were at most 1, else the next question |
| BalloonGame.FinalPatch | components/jogo-baloes.tsx:446-453 | the saved score is the larger of the stored score (0 if none) and the game's score; only score and level are sent |
| BalloonGame.SaveKeepsBest | components/jogo-baloes.tsx:442-455 | saving never lowers the stored best, the level matches the best, and saving a lower score again changes nothing |
| BalloonGame.Game.constructor | components/jogo-baloes.tsx:162-185 | the defaults 20 s and 10 questions, score 0, three lives, nothing started |
| BalloonGame.Game.CarregarConfiguracoes | components/jogo-baloes.tsx:188-206 | a difficulty in the profile selects its row of the table; otherwise the settings stay |
| BalloonGame.Game.Iniciar | components/jogo-baloes.tsx:209-213 | a screen neither started nor over becomes started, and the countdown captures the current lives, score and index |
| BalloonGame.Game.MostrarPrimeiraQuestao | components/jogo-baloes.tsx:216-228 | once started, not over, not paused and without a question: question 1, full clock, its balloons when the game area exists, and the countdown restarts capturing the current lives, score and index |
| BalloonGame.Game.Tick | components/jogo-baloes.tsx:231-247 | while running, over 1 s decrements the clock; at 1 s or less the clock stops at 0, a life is taken from the current count, and `AfterWrong` of the lives, score and index the countdown captured is scheduled (`TimedOut`) |
| BalloonGame.Game.RespostaErrada | components/jogo-baloes.tsx:391-415 | exactly one life less, and `AfterWrong` of the lives before it is scheduled |
| BalloonGame.Game.RespostaCorreta | components/jogo-baloes.tsx:367-388 | `Points` for the time left is added, and the next question is scheduled with the score before it |
| BalloonGame.Game.VerificarResposta | components/jogo-baloes.tsx:353-364 | judged only with a question shown and not paused: correct exactly when equal to the answer |
| BalloonGame.Game.Atirar | components/jogo-baloes.tsx:294-350 | a shot only while the bow is ready, not paused and the area exists; it disarms the bow; a miss schedules re-arming, a hit judges that balloon's value |
| BalloonGame.Game.Finalizar | components/jogo-baloes.tsx:442-455 | the game is over; with a session the profile gets `FinalPatch`, so the session's best never decreases; from a `Synced` store it stays synced and the record with the session's id keeps a best at least its old one and at least the game's score |
| BalloonGame.Game.ProximaQuestao | components/jogo-baloes.tsx:418-439 | at the last index the game finishes; otherwise `MostrarQuestao` |
| BalloonGame.Game.MostrarQuestao | components/jogo-baloes.tsx:424-438 | index + 1, full clock, no verdict, new balloons when the area exists, and the countdown restarts capturing the current lives, score and index |
| BalloonGame.Game.Disparar | components/jogo-baloes.tsx:346-349 | the oldest continuation runs: re-arming the bow, the captured next question, or the captured end of the game |
| BalloonGame.Game.TogglePause | components/jogo-baloes.tsx:520 | the pause flag flips; on resuming the countdown restarts capturing the current lives, score and index |
| BalloonGame.Game.Retomar | components/jogo-baloes.tsx:706 | the pause menu's continue button unpauses, and the countdown restarts capturing the current lives, score and index |
| BalloonGame.Game.Reiniciar | components/jogo-baloes.tsx:458-469 | started, not over, index 0, score 0, three lives, no question, no balloons, bow ready |
| Customisation.AvatarIdsDistinct | components/personalizacao-jogador.tsx:39-64 | the four avatar ids are distinct |
| Customisation.NextTab | components/personalizacao-jogador.tsx:117-120 | avatar to difficulty, difficulty to mode, mode unchanged |
| Customisation.NextTabAdvances | components/personalizacao-jogador.tsx:117-120 | advancing moves one step forward except on the last tab, and twice from any tab reaches the mode tab |
| Customisation.PreviousTab | components/personalizacao-jogador.tsx:295 | the back buttons move one tab back |
| Customisation.BackThenNext | components/personalizacao-jogador.tsx:295-303 | back then next returns to the tab one started from |
| Customisation.AllChosen | components/personalizacao-jogador.tsx:112-114 | `todasSelecoesConcluidas`: an avatar, a difficulty and a mode are chosen |
| Customisation.TabEnabled | components/personalizacao-jogador.tsx:171-184 | the difficulty header is enabled once an avatar is chosen, the mode header once a difficulty is chosen |
| Customisation.NextEnabled | components/personalizacao-jogador.tsx:245-247 | each next button is enabled once its tab's choice is made; the mode tab has none |
| Customisation.StartEnabled | components/personalizacao-jogador.tsx:350-352 | the start button is enabled once a mode is chosen |
| Customisation.StartMeansAllChosen | components/personalizacao-jogador.tsx:112-114 | in a state reachable under the gating, the start button is enabled exactly when all three choices are made |
| Customisation.FindImage | components/personalizacao-jogador.tsx:127 | `find` returns the image of the first avatar with the id, and nothing exactly when there is none |
| Customisation.ImageOfChosenAvatar | components/personalizacao-jogador.tsx:127 | as the ids are distinct, every avatar's id finds that avatar's own image |
| Customisation.ChoicesPatch | components/personalizacao-jogador.tsx:126-130 | the patch holds the found image, the difficulty and the mode, and no score or level |
| Customisation.Wizard.constructor | components/personalizacao-jogador.tsx:103-106 | the avatar tab with nothing chosen |
| Customisation.Wizard.ChooseAvatar | components/personalizacao-jogador.tsx:203 | on the avatar tab, records the clicked avatar's id |
| Customisation.Wizard.ChooseDificuldade | components/personalizacao-jogador.tsx:263-276 | on the difficulty tab, records the difficulty |
| Customisation.Wizard.ChooseModo | components/personalizacao-jogador.tsx:317-328 | on the mode tab, records the mode |
| Customisation.Wizard.SelectTab | components/personalizacao-jogador.tsx:163-184 | a tab header opens its tab unless disabled: difficulty until an avatar is chosen, mode until a difficulty is chosen |
| Customisation.Wizard.ClickNext | components/personalizacao-jogador.tsx:246-247 | the next button advances when enabled, that is once the current tab's choice is made |
| Customisation.Wizard.ClickBack | components/personalizacao-jogador.tsx:344 | one tab back |
| Customisation.Wizard.ClickStart | components/personalizacao-jogador.tsx:123-137 | starts exactly when a mode is chosen, which is exactly when all choices are made; the store is then as `atualizarUsuario(ChoicesPatch(...))` leaves it (`Updated`): session, "usuario" key and the record with its id; otherwise unchanged; the store stays `Synced` |
| Forms.RegisteredCanLogIn | components/login-register-form.tsx:19-47 | input the registration schema accepts also passes the login schema for the same account |
| Forms.MessagesDistinct | components/login-register-form.tsx:19-47 | different complaints carry different message texts |
| Forms.LoginValid | components/login-register-form.tsx:19-26 | `loginSchema`: a username of 3 characters or more and a password of 4 or more |
| Forms.RegisterValid | components/login-register-form.tsx:29-47 | `registerSchema`: a name of 3 characters or more, an age from 5 to 12, a username of 3 or more and a password of 4 or more |
| Forms.LoginErrors | components/login-register-form.tsx:19-26 | no complaint exactly when the username has 3 characters or more and the password 4 or more; each complaint exactly when its check fails |
| Forms.RegisterErrors | components/login-register-form.tsx:29-47 | no complaint exactly when name has 3 or more characters, age is 5 to 12, username 3 or more and password 4 or more; each complaint exactly when its check fails |
| Forms.LoginErrorsOnePerField | components/login-register-form.tsx:19-26 | the login form shows at most one complaint under each field |
| Forms.RegisterErrorsOnePerField | components/login-register-form.tsx:29-47 | the registration form shows at most one complaint under each field, the age's two bounds included |
| Forms.LoginOutcome | components/login-register-form.tsx:166-189 | success brings the welcome alert and the menu; failure brings an error alert that is cleared later |
| Forms.RegisterOutcome | components/login-register-form.tsx:192-215 | success brings the welcome alert and the menu; failure brings the "username taken" error alert, cleared later |
| Forms.SubmitLogin | components/login-register-form.tsx:166-189 | rejected input submits nothing and leaves the store; otherwise the alert is a success exactly when the stored list holds that username and password, and the store is as `login` leaves it (`LoginDone`) |
| Forms.SubmitRegister | components/login-register-form.tsx:192-215 | rejected input submits nothing and leaves the store; otherwise the alert is a success exactly when the username is not in a readable stored list, and the store is as `registrar` leaves it (`RegisterDone`) |

## Left out

- Rendering, animation, sound, navigation and `confirm` are not modelled. Navigation is kept only as a flag. The menu, settings, home and layout pages hold no modelled logic.
- Timer delays and interval cleanup are not modelled. Ticks and continuations are explicit events; the 500 ms "balloons visible" delays only change what is drawn.
- Storage and JSON are not modelled beyond the `Absent`, `Corrupt` and `Present` states. Text that parses to a non-list, or to the JSON `null`, is not modelled.
- `Math.random` is an explicit draw. The random-comparator sort is an explicit permutation.
- The screen geometry is not modelled: the balloons' positions, the arrow's path, the collision test with `Math.sqrt`, the archer's clamped position and the progress bars. A shot names the balloon it hits, if any.
- BalloonGame.Game.Atirar: the 300 ms between the shot and the collision check is collapsed. A pause in between is not modelled.
- BalloonGame.Game.Finalizar: the session is read from the store when the continuation runs, not as the closure captured it. They differ only after another update to the profile.
- The message texts of the game screens (`Correto! +N pontos`, `Incorreto! ...`) and the arrow's hit flag are display only.
- QuestionGen.GerarQuestao: when the distractor loop cannot finish, the source never returns. The model returns `complete == false` once the supplied draws run out, with every draw's candidate inadmissible or already taken.
- BalloonGame.Game.MostrarPrimeiraQuestao, BalloonGame.Game.ProximaQuestao, BalloonGame.Game.MostrarQuestao and BalloonGame.Game.Disparar take the next question already generated and require it complete. A stuck draw, such as a division with quotient 1 (one division in ten on the medium and hard tiers) or a product from 1 to 4, freezes the source's screen in the generator; the model's screen never reaches that state, and it shows only in GerarQuestao's `Stuck ==> !complete`.
- QuizGame.Session.IniciarJogo and QuizGame.Session.Continuar require a complete next question too. The quiz's easy tier draws only `+` and `-`, which are never stuck, so no quiz question is excluded.
- UserStore.Store.CarregarSessao: the session restored from the "usuario" key is not checked against the stored list, so storage as found need not be `Synced`; the promise of BalloonGame.Game.Finalizar about the stored record holds from a synced store.
- UserStore.Store.Registrar keeps the store `Synced` only for an id no record has. The source takes the id from the clock in milliseconds, which the model makes a parameter.
- Difficulties and modes are enumerations. Any other string in a profile is not modelled.
- UserStore.Patch: covers the fields the application patches (avatar, difficulty, mode, score, level). An explicit `undefined` in a patch, which would erase a field, is not modelled; the wizard's avatar lookup cannot produce it, by `ImageOfChosenAvatar`.
- Forms.RegisterValid: ages are whole numbers. The schema's coercion would also accept a fractional age such as 7.5.
- String lengths count characters. JavaScript counts UTF-16 code units, which differ only outside the Basic Multilingual Plane.
- QuizGame: the quiz screen's first-question branch of its timer effect is not modelled. It never fires, because `iniciarJogo` always sets a question first.
- QuizGame.InitialRanking: the bot entries are the only data before the first game.
- The quiz screen's `reiniciarJogo` button runs `iniciarJogo`, modelled as QuizGame.Session.IniciarJogo.
- The balloon screen's level state is never updated by the source and only displayed, so it is not a field of the model.
