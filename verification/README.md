# NitroHack: state machines of the game engine, proved in Dafny

This project models seven source files of the game library and proves what they promise over whole runs:

- **The iron ball** (`ball.c`, with `teleds` of `teleport.c`). `BallDrag` says where hero, chain and ball go; `BallFloor`
  says what happens to the piles of objects they lie in; `BallMemory` is the blind hero's ledger of what he remembers under
  each piece; `BallAndChain` is the code in place, proved against the three; `BallRuns` follows the ledger through whole
  moves and what the hero feels between them (`display.c`, `hack.c`).
- **The drawbridge** (`dbridge.c`). `Drawbridge` resolves the two creatures that a closing bridge may catch,
  `DrawbridgeSafety` says exactly when nobody vulnerable is left alive in the portcullis, `DrawbridgeWorks` is the code in place.
- **Artifacts** (`artifact.c`, `bones.c`). `ArtifactCarry` compares the carried bits switched one object at a time with
  the union recomputed from the inventory. `ArtifactRegistry` keeps artifacts unique through creation, naming, loss and
  bones files; `Oprops` is the filter for other object properties and the loop that gives them; `ArtifactWorks` is the
  code in place. `Discovery` is the list of identified artifacts.
- **Unicorn horns** (`apply.c`). `Troubles` says what the trouble list holds, how it is shuffled and what fixing does;
  `TroubleFixer` is the code in place.
- **Leashes** (`apply.c`). `Leashes`, `LeashWalk` and `LeashDrag` say what each operation does to the relation between
  leashes and pets, `LeashRuns` what any run keeps, `LeashWorks` is the code in place.
- **The data librarian** (`dlb.c`). `DlbSpec` and `DlbRuns` compare handles on one shared library file with private files;
  `Dlb` is the code in place.
- **Attributes** (`attrib.c`, tables of `role.c`). `Attributes` bounds raising, draining and redistribution in signed bytes;
  `InitAttr` spreads a new hero's points; `Abilities` ties level-driven abilities to the present level;
  `AttributeWorks` is the code in place.

`Geometry` holds squares, distances and terrain. Chance is a parameter: a die, a list of dice or an endless roll. Where the
code may go on throwing for ever (`do_entity`, `create_oprop`) the dice are a finite list and running out is an outcome
of its own. Bit masks are sets of named bits, and a timed property is its timeout with its permanent bits.
Terrain keeps its type codes and bit masks. What `topobj_at` notes of an object beneath ball and chain is kept apart from
what `map_object` remembers of it, because the one compares a number one too high with those of corpses, statues, figurines
and boulders.

Where the code turned out not to keep a promise, the exact condition is proved, and a lemma gives an input at which
it fails:

- `BallDrag.TeledsLinkedIff`: `TeledsCanBreakTheLink`.
- `BallMemory.BlindMoveKeptIff`: `BlindRunCanForget`.
- `DrawbridgeSafety.CloseCleanIff`: `WearerRemains` and `WaiterEndsInside`, which between them cover every endangered bridge.
- `DlbSpec.SyncIffWholeItems`: `CutLibraryLosesSync`.
- `DlbSpec.LibSeekIsOwnIff` and `SeekEndIsBackwards`: `SeekEndGoesBack`.
- `LeashDrag.HeldPetsAreClose`: `SavedDogTurns`, where choking costs a pet all its tameness; `SavedMinionStays`, where a leash
  stretches over more than five squares.
- `Attributes.GainIsExpectedIff`: `GainCanFill`. `DrainUndoneIff`: `HungerCanFill`. `EachPointPaidIff`: `FixedStillPays`.

`InitAttr.ChancesInHundred` is off by one for every role.

## Model

| member | source | states |
|---|---|---|
| Geometry.AdjacentIffDist2 | libnitrohack/src/hacklib.c:245-262 | being one king-step away and having squared distance at most 2 are the same, at any range |
| BallDrag.KnightSquares | libnitrohack/src/ball.c:457-476 | of the two squares between a knight's move, one is straight beside the hero's, the other diagonally |
| BallDrag.SlideLinks | libnitrohack/src/ball.c:442-579 | whenever the chain slides alone it lands on the map within a king-step of the hero's new square and of the ball, wherever it started; the "bad chain movement" arm has no case left |
| BallDrag.SlideOffRock | libnitrohack/src/ball.c:422-579 | a sliding chain never enters rock or a closed door if all pieces and the destination are off them |
| BallDrag.OpenFloorNeverDrags | libnitrohack/src/ball.c:429-434 | over open floor the ball is dragged only when it is more than two squares away |
| BallDrag.WalkKeepsLinked | libnitrohack/src/ball.c:391-657 | after drag_ball, TRUE or FALSE, whatever load, trap, water and victim, the chain touches hero and ball |
| BallDrag.WalkKeepsOffRock | libnitrohack/src/ball.c:422-657 | no piece ends on rock or a closed door, in any distance case, undone and dragged, or jerked back |
| BallDrag.ThwartedKeepsLinked | libnitrohack/src/hack.c:1943-1955 | when a stubborn pet sends the hero back after the ball has been dragged, a single step still leaves the chain touching both |
| BallDrag.RunKeepsLinks | libnitrohack/src/ball.c:391-657 | over any run of moves, thwarted single steps among them, the chain touches hero and ball |
| BallDrag.RunKeepsOffRock | libnitrohack/src/ball.c:391-657 | over any run of moves no piece enters rock or a closed door |
| BallDrag.CarriedStepKeepsChain | libnitrohack/src/ball.c:414-421 | with the ball carried, a single step leaves the chain beside the hero |
| BallDrag.TeledsLinkedIff | libnitrohack/src/teleport.c:383-461 | teleds ignores a FALSE of drag_ball: the links survive exactly when the ball was not held back |
| BallDrag.JourneyLinkedIff | libnitrohack/src/teleport.c:383-461 | over any run of walks and teleports, in any order, the links hold all along exactly when no teleport was held back |
| BallDrag.TeledsCanBreakTheLink | libnitrohack/src/teleport.c:442-456 | an overloaded hero displaced one square from a taut chain loses it |
| BallFloor.LiftBothLifts | libnitrohack/src/ball.c:337-355 | taking both pieces up leaves them in no pile and every other object where it was |
| BallFloor.PutBothSettles | libnitrohack/src/ball.c:355-375 | putting them down leaves each in exactly one pile, at its square |
| BallFloor.ShiftSettles | libnitrohack/src/ball.c:263-336 | moving one piece keeps each in one pile |
| BallFloor.OrderDiffers | libnitrohack/src/ball.c:184-198 | bc_order answers "different squares" exactly when the ball is carried or elsewhere than the chain |
| BallFloor.LiftPutKeepsOrder | libnitrohack/src/ball.c:337-375 | lifting and putting back where they were keeps which of two stacked pieces is on top |
| BallMemory.UnmovedKeepsOrder | libnitrohack/src/ball.c:337-375 | a sighted move_bc of neither piece leaves the recorded order true |
| BallMemory.BothMoveKeepsLedger | libnitrohack/src/ball.c:277-294 | moving both pieces blindly keeps the ledger |
| BallMemory.BallMoveKeepsLedgerIff | libnitrohack/src/ball.c:295-315 | moving the ball blindly keeps it exactly when the ball is not pulled, felt, from under an unfelt chain that hides a difference |
| BallMemory.ChainMoveKeepsLedgerIff | libnitrohack/src/ball.c:315-333 | the same for the chain, and a carried ball's stale square must not be mistaken for the chain's new one |
| BallMemory.MovObjSenses | libnitrohack/src/hack.c:710-717 | movobj makes a blind hero feel his own square, at whichever end it is: he notes the piece moved and any other there, and remembers what is shown at last |
| BallMemory.BlindMoveSenses | libnitrohack/src/ball.c:263-336 | so a blind move_bc comes to what its branches save and drop, and one feeling of the hero's square if a piece leaves it or comes to it |
| BallMemory.BlindMoveKeptIff | libnitrohack/src/ball.c:263-336 | a blind move_bc keeps piles, order and ledger, amended at a felt square, exactly when all it forgets is felt again and no piece pulled from under the hero takes a wrong glyph along; it forgets nothing if the upper piece is felt whenever the lower is |
| BallMemory.UnplaceRestores | libnitrohack/src/ball.c:160-177 | unplacebc gives back the underlying memory everywhere, but what the hero feels where he stands on a piece, and leaves nothing felt |
| BallMemory.PlaceOpensLedger | libnitrohack/src/ball.c:133-156 | placebc starts a ledger of the memory as it stands, with what a blind hero on the ground feels beneath the pieces |
| BallMemory.SetBcOpensLedger | libnitrohack/src/ball.c:206-250 | set_bc starts a ledger of what lies beneath both pieces, or of the memory as it stands for a hero already blind, with both felt and their order recorded |
| BallMemory.PunishBlindOpensLedger | libnitrohack/src/read.c:1832-1836 | placebc and set_bc(1) save the pieces' own picture for a blind hero on the ground; the newsym that follows puts that right and a ledger is open |
| BallMemory.BlindRunRestores | libnitrohack/src/ball.c:160-336 | after any run of blind move_bc calls that forget nothing, unplacebc restores the memory the run began with, amended by what was felt |
| BallMemory.BlindRunCanForget | libnitrohack/src/ball.c:295-333 | two one-piece moves, the first a jerk past a monster, that lose a remembered glyph |
| BallAndChain.LiftPendingIffGoing | libnitrohack/src/ball.c:391-657 | drag_ball returns TRUE exactly with a lift pending; for a sighted hero the pieces are then in no pile, otherwise each in one; other objects stay |
| BallAndChain.WalkStateSettles | libnitrohack/src/hack.c:1894-1906 | after a whole move the pieces lie in one pile each at the squares the movement rules give |
| BallAndChain.ThwartedStateSettles | libnitrohack/src/hack.c:1943-1955 | so they do when the hero is sent back: ball and chain stay where the move would have had them |
| BallAndChain.RunStateKeeps | libnitrohack/src/ball.c:391-657 | over any run, hero sent back or not, the pieces stay settled where the movement rules say and no other object moves; links hold |
| BallRuns.FeelKeeps | libnitrohack/src/display.c:672-696 | feeling a square keeps the ledger, amended there: by what is beneath if a piece lies there, else by what is shown |
| BallRuns.FeelKeptIff | libnitrohack/src/display.c:672-696 | some ledger that differs there alone is kept exactly unless both pieces lie there and the two looks beneath them disagree, as a hallucinating hero's may |
| BallRuns.LandingJerkKeeps | libnitrohack/src/ball.c:600-633 | jerked back to a free square the hero feels both pieces there, so nothing is forgotten whatever was felt before, and the chain is safe to pull |
| BallRuns.JerkKeptIff | libnitrohack/src/ball.c:600-633 | where a monster keeps him off it, the jerk forgets exactly if the ball lay, felt, beneath an unfelt chain with a difference to forget and not under him, or comes from under him to a square that hides something else; a felt chain is then safe to pull exactly if he stands where the ball was or lies |
| BallRuns.MoveKeeps | libnitrohack/src/hack.c:1894-2070 | a blind hero's whole move, whether he goes and feels his new square, is held, slides, drags, is jerked back or sent back, keeps the ledger and the chain safe to pull, unless a monster keeps him off a jerk or a pet sends him back over a dragged ball |
| BallRuns.RunKeepsLedger | libnitrohack/src/ball.c:391-657 | so does any run of such moves, of feeling squares, and of starting and ending levitation |
| BallRuns.BlindnessRestores | libnitrohack/src/ball.c:160-250 | from going blind, over any such run, unplacebc gives back what lay beneath the pieces at first, amended by what was felt since |
| BallRuns.PunishmentRestores | libnitrohack/src/read.c:1832-1836 | from being punished while blind, over any such run, it gives back the memory as it then stood, with what was felt beneath the pieces then and since |
| BallAndChain.Punishment.PlaceBc | libnitrohack/src/ball.c:133-156 | placebc does what Place says |
| BallAndChain.Punishment.UnplaceBc | libnitrohack/src/ball.c:160-177 | unplacebc does what Unplace says |
| BallAndChain.Punishment.SetBc | libnitrohack/src/ball.c:206-250 | set_bc does what SetBc says |
| BallAndChain.Punishment.FeelLocation | libnitrohack/src/display.c:672-696 | feel_location on the ground does what Feel says |
| BallAndChain.Punishment.MoveObject | libnitrohack/src/hack.c:710-717 | movobj does what MovObj says |
| BallAndChain.Punishment.MoveBc | libnitrohack/src/ball.c:263-376 | move_bc does what MoveBc says, blind or sighted, before or after |
| BallAndChain.Punishment.DragBall | libnitrohack/src/ball.c:391-657 | drag_ball leaves the state and answers that the movement rules give |
| BallAndChain.Punishment.HaulBall | libnitrohack/src/ball.c:581-657 | the "drag" label: refused, jerked back, or both pieces moved |
| BallAndChain.Punishment.SlideChain | libnitrohack/src/ball.c:442-579 | the switch on the distance finds the square Slide gives, or asks for the ball to be dragged |
| Drawbridge.WallRoundTripIff | libnitrohack/src/dbridge.c:84-157 | from a bridge to its wall and back again, exactly when no other bridge claims that wall first |
| Drawbridge.SpanSquares | libnitrohack/src/dbridge.c:123-157 | the bridge's two squares are each other's partner |
| Drawbridge.DoEntity | libnitrohack/src/dbridge.c:441-601 | whenever do_entity returns, the record is void or stands where its monster survives; the other is untouched or so dealt with; two live records never share a square |
| Drawbridge.Relocate | libnitrohack/src/dbridge.c:516-601 | the same through every standoff |
| Drawbridge.Clear | libnitrohack/src/dbridge.c:516-545 | a standoff ends with the other creature off its square |
| Drawbridge.CloseTerrainSpans | libnitrohack/src/dbridge.c:632-646 | a bridge closed is still a bridge with its wall |
| Drawbridge.DoEntityKeepsTrack | libnitrohack/src/dbridge.c:441-601 | records, monster map and hidden monsters agree throughout: nobody vulnerable is alive and unrecorded in the portcullis, on the map or off it, unless saved there |
| DrawbridgeSafety.SafeUnlessEndangered | libnitrohack/src/dbridge.c:647-651 | without the two life-saving dangers nobody vulnerable is left alive in the portcullis, on the monster map or overwritten there |
| DrawbridgeSafety.NobodyHidden | libnitrohack/src/dbridge.c:607-666 | without a vulnerable amulet wearer at the portcullis, nobody living is overwritten there |
| DrawbridgeSafety.RammerHides | libnitrohack/src/dbridge.c:516-545 | a crushed and saved wearer whose square is taken lives on in the portcullis, with no map cell and no record |
| DrawbridgeSafety.WearerRemains | libnitrohack/src/dbridge.c:320-380 | for every vulnerable amulet wearer at the portcullis, rammed or not, some dice leave it alive there |
| DrawbridgeSafety.WaiterEndsInside | libnitrohack/src/dbridge.c:516-601 | dice that carry a wearer from the bridge into the portcullis |
| DrawbridgeSafety.CloseCleanIff | libnitrohack/src/dbridge.c:607-666 | whatever the dice, everyone left alive in the portcullis, on the map or overwritten, passes walls or has no body, exactly when life saving does not endanger it |
| DrawbridgeWorks.Works.DoEntity | libnitrohack/src/dbridge.c:441-601 | the recursive code on the shared records does what DoEntity says |
| DrawbridgeWorks.Works.KillEntity | libnitrohack/src/dbridge.c:320-380 | e_died for a monster empties record and square, or leaves it saved |
| DrawbridgeWorks.Works.SetEntity | libnitrohack/src/dbridge.c:254-272 | set_entity looks the square's occupant up |
| DrawbridgeWorks.Works.FindEntity | libnitrohack/src/dbridge.c:219-230 | e_at finds the first live record on a square |
| DrawbridgeWorks.Works.CloseDrawbridge | libnitrohack/src/dbridge.c:607-666 | closing sets the terrain and resolves both occupants as Close says, overwritten monsters among them; unless endangered, the portcullis is clean |
| ArtifactCarry.CarriedWarningsArePlain | libnitrohack/include/artilist.h:148-236 | no carried artifact warns of a monster type |
| ArtifactCarry.SpfxExact | libnitrohack/src/artifact.c:827-842 | masking out the bits that other carried artifacts give is exact |
| ArtifactCarry.PickUpConsistent | libnitrohack/src/artifact.c:732-947 | picking up keeps the carried bits equal to the union recomputed over the inventory and touches no other bit |
| ArtifactCarry.PutDownConsistentIff | libnitrohack/src/artifact.c:732-947 | putting down keeps them equal exactly when it is not one of two quest artifacts |
| ArtifactCarry.RunConsistent | libnitrohack/src/artifact.c:732-947 | after any pick-ups and put-downs the carried bits are what the artifacts now carried confer |
| ArtifactCarry.Hero.CarryIntrinsic | libnitrohack/src/artifact.c:732-947 | set_artifact_intrinsic with W_ART switches the bits those rules give |
| ArtifactCarry.Hero.PickUpObject | libnitrohack/src/invent.c:280-295 | the inventory with the object added, its bits switched on |
| ArtifactCarry.Hero.PutDownObject | libnitrohack/src/invent.c:515-527 | the inventory without it; bits that were right stay right exactly when it is not one of two quest artifacts |
| ArtifactRegistry.RestoredKeptIff | libnitrohack/src/bones.c:67-132 | a restored artifact is kept exactly when it is not the hero's own quest artifact and not yet registered: of copies, the first |
| ArtifactRegistry.RestoreKeepsUnique | libnitrohack/src/bones.c:449-457 | everything a bones level brings joins the game without doubling an artifact |
| ArtifactRegistry.SavedAreChristened | libnitrohack/src/bones.c:67-132 | saving bones registers nothing and leaves every artifact with its own type and name |
| ArtifactRegistry.MakeIsArtifact | libnitrohack/src/artifact.c:164-174 | an eligible object named by mk_artifact becomes that artifact, registered and without other properties |
| ArtifactRegistry.OnameKeepsUnique | libnitrohack/src/do_name.c:220-259 | naming an object never doubles an artifact |
| ArtifactRegistry.UnmakeKeepsUnique | libnitrohack/src/artifact.c:595-613 | unregistering frees the index and leaves the others unique |
| ArtifactRegistry.RunKeepsUnique | libnitrohack/src/artifact.c:132-179 | over any creations, namings, losses and restores no artifact exists twice, each is registered under its name, none has other properties |
| ArtifactWorks.ResetAllAt | libnitrohack/src/bones.c:67-132 | resetting objects one after the other against one register is resetting them all |
| ArtifactWorks.Artifacts.Exists | libnitrohack/src/artifact.c:583-593 | exist_artifact finds the artifact of that type and name |
| ArtifactWorks.Artifacts.SetExists | libnitrohack/src/artifact.c:595-613 | artifact_exists does what ArtifactExists says |
| ArtifactWorks.Artifacts.NameObject | libnitrohack/src/do_name.c:220-259 | oname does what Oname says |
| ArtifactWorks.Artifacts.Choose | libnitrohack/src/artifact.c:151-170 | the first eligible artifact of the hero's role, else one picked from all eligible, else none |
| ArtifactWorks.Artifacts.MakeOf | libnitrohack/src/artifact.c:132-179 | mk_artifact on an object: an artifact of its type if one is eligible, else new properties |
| ArtifactWorks.Artifacts.MakeGift | libnitrohack/src/artifact.c:132-179 | mk_artifact for an alignment: a new object made an eligible artifact, or else some other weapon given new properties |
| ArtifactWorks.Artifacts.CreateOprop | libnitrohack/src/artifact.c:386-437 | create_oprop on an object does what Created says |
| ArtifactWorks.Artifacts.ResetOne | libnitrohack/src/bones.c:67-132 | resetobjs for one object |
| ArtifactWorks.Artifacts.ResetChain | libnitrohack/src/bones.c:67-132 | the recursive walk of a chain and all contents is resetting the flattened list, contents first |
| Oprops.FilterLaws | libnitrohack/src/artifact.c:222-336 | restrict_oprops only removes, is idempotent and distributes over union |
| Oprops.RestrictOprops | libnitrohack/src/artifact.c:222-336 | the table loop and the special cases keep exactly the permitted properties |
| Oprops.RowsAre | libnitrohack/src/artifact.c:233-257 | the table's rows, read property by property |
| Oprops.ThreeGrantable | libnitrohack/src/artifact.c:222-336 | three harmless properties are open to everything that can have any; nothing else gets one |
| Oprops.GrowIsSound | libnitrohack/src/artifact.c:413-429 | whatever comes out is non-empty, keeps what was there and adds only what may be granted |
| Oprops.GrownExactly | libnitrohack/src/artifact.c:413-429 | the outcomes for a plain object are exactly the non-empty sets of grantable properties |
| Oprops.CanAlwaysEnd | libnitrohack/src/artifact.c:413-429 | however the dice have fallen, some further dice end the loop |
| Oprops.CreatedIsSound | libnitrohack/src/artifact.c:386-437 | create_oprop adds only permitted, never vorpal properties, and without leave no harmful one, no curse and no negative enchantment; artifacts and unique objects gain none |
| Discovery.Pigeonhole | libnitrohack/src/artifact.c:1203-1205 | distinct artifact numbers are at most as many as slots, and that many are all of them |
| Discovery.AllHaveSlots | libnitrohack/src/artifact.c:1191-1207 | whatever is identified in whatever order finds a slot, and exactly that is discovered |
| Discovery.Discoveries.Discover | libnitrohack/src/artifact.c:1191-1207 | the list with the artifact added once; the warning is never reached for an artifact number |
| Discovery.Discoveries.Undiscovered | libnitrohack/src/artifact.c:1211-1223 | exactly not being on the list |
| Discovery.Discoveries.Shown | libnitrohack/src/artifact.c:1227-1248 | the entries shown are the list |
| Troubles.ListedAsOften | libnitrohack/src/apply.c:1436-1459 | each property trouble is listed once, each attribute once a point it may get back, nothing else |
| Troubles.TroubleRoom | libnitrohack/src/apply.c:1396-1402 | the list fits its array |
| Troubles.ShuffledSame | libnitrohack/src/apply.c:1464-1473 | the shuffle keeps the multiset |
| Troubles.ShuffleReaches | libnitrohack/src/apply.c:1464-1473 | some dice bring the list into any given order |
| Troubles.FixedBase | libnitrohack/src/apply.c:1486-1520 | an attribute gains a point for each time it comes up |
| Troubles.FixedProp | libnitrohack/src/apply.c:1489-1514 | a property field afterwards depends only on whether it came up |
| Troubles.StillAilsIff | libnitrohack/src/apply.c:1489-1514 | a trouble is left exactly if it did not come up or is of the stubborn kind: permanent (for blindness, beyond the cream on the face), or sickness of no known type |
| Troubles.FixesAddUp | libnitrohack/src/apply.c:1481-1520 | every fix restores one point or treats one property |
| Troubles.OutcomeIsBounded | libnitrohack/src/apply.c:1394-1536 | points restored plus properties treated are the fixes drawn, at most 7 blessed and 3 otherwise; no attribute gains more than its share or passes its peak |
| Troubles.AnyOrderCanCome | libnitrohack/src/apply.c:1464-1473 | any order of the troubles can come first |
| TroubleFixer.Shuffle | libnitrohack/src/apply.c:1464-1473 | the swaps in place are Shuffled |
| TroubleFixer.Hero.Collect | libnitrohack/src/apply.c:1434-1459 | the array holds exactly the troubles, in order and within its bounds |
| TroubleFixer.Hero.Fix | libnitrohack/src/apply.c:1486-1520 | the switch fixes the first entries; the panic is never reached |
| TroubleFixer.Hero.FixTroubles | libnitrohack/src/apply.c:1394-1536 | the function leaves the hero as Outcome says, changing nothing else |
| Leashes.CountsAgree | libnitrohack/src/apply.c:358-366 | there are as many leashes in use as leashed pets |
| Leashes.MUnleashKeeps | libnitrohack/src/apply.c:378-393 | m_unleash keeps leashes and pets in one-to-one correspondence |
| Leashes.OUnleashIsMUnleash | libnitrohack/src/apply.c:368-376 | letting go of a leash and of its pet are the same |
| Leashes.UseLeashKeeps | libnitrohack/src/apply.c:409-477 | applying a leash keeps the correspondence and the limit of two |
| LeashWalk.SlackenIs | libnitrohack/src/apply.c:503-512 | the loop for a pet that cannot come either frees it or meets a curse |
| LeashWalk.NextToUIff | libnitrohack/src/apply.c:493-519 | next_to_u is TRUE exactly when no pet out of reach is on a cursed leash and the steed has no Amulet; then every living leashed pet is within squared distance 2 |
| LeashWalk.StrayWithoutLeash | libnitrohack/src/apply.c:493-519 | without the correspondence a stray would be overlooked |
| LeashDrag.TugIs | libnitrohack/src/apply.c:527-574 | a pulled leash changes only itself and its pet, which is held, hurt, let go, killed, or killed and saved: then wild and loose unless a minion |
| LeashDrag.CheckLeashIs | libnitrohack/src/apply.c:522-576 | check_leash treats each leash and pet as if there were no others, and keeps the correspondence |
| LeashDrag.HeldPetsAreClose | libnitrohack/src/apply.c:538-572 | a pet left more than five squares behind is still leashed exactly if it was choked, saved by an amulet and does not resent it; a tame pet that lives has turned wild exactly if it was choked and saved and is no minion, and then it is loose |
| LeashDrag.SavedDogTurns | libnitrohack/src/dog.c:842-886 | a saved dog of tameness 5 that ends wild and loose |
| LeashDrag.SavedMinionStays | libnitrohack/src/mon.c:1320-1326 | a saved minion that stays on a leash seven squares long |
| LeashRuns.RunKeepsLinked | libnitrohack/src/apply.c:358-574 | over any run of applying, losing, straying, pets living their lives, dying, staying behind, arriving, leaving and walking, leashes in use and leashed pets correspond one to one, at most two |
| LeashWorks.Level.Number | libnitrohack/src/apply.c:358-366 | number_leashed counts the leashes in use |
| LeashWorks.Level.Unleash | libnitrohack/src/apply.c:368-376 | o_unleash does what OUnleash says |
| LeashWorks.Level.Free | libnitrohack/src/apply.c:378-393 | m_unleash does what MUnleash says |
| LeashWorks.Level.FreeAll | libnitrohack/src/apply.c:395-404 | unleash_all does what UnleashAll says |
| LeashWorks.Level.Use | libnitrohack/src/apply.c:409-477 | use_leash does what UseLeash says |
| LeashWorks.Level.NextToHero | libnitrohack/src/apply.c:493-519 | next_to_u does what NextToU says |
| LeashWorks.Level.Kill | libnitrohack/src/mon.c:1720-1744 | xkilled does to a leashed pet and its leash what Slain and LetGo say |
| LeashWorks.Level.Check | libnitrohack/src/apply.c:522-576 | check_leash does what CheckLeash says |
| DlbSpec.LibReadIsOwn | libnitrohack/src/dlb.c:262-283 | a read returns what a private file would, never a byte of the next file, and the cached position stays true |
| DlbSpec.SyncIffWholeItems | libnitrohack/src/dlb.c:275-282 | on a library shorter than its directory says, the cached position stays true exactly when stdio stops at a whole item |
| DlbSpec.CutLibraryLosesSync | libnitrohack/src/dlb.c:275-282 | a library cut short whose cached position falls behind |
| DlbSpec.LibSeekIsOwnIff | libnitrohack/src/dlb.c:285-299 | a seek is a private file's seek, clamped to the file, exactly when it is not measured from the end, asks for the end itself, or the file is empty; otherwise it is the one to the opposite offset |
| DlbSpec.SeekEndIsBackwards | libnitrohack/src/dlb.c:285-299 | from the end the librarian counts backwards; that agrees with counting forwards only for the end itself or an empty file |
| DlbSpec.SeekEndGoesBack | libnitrohack/src/dlb.c:285-299 | four bytes from the end of a file of ten is its sixth byte |
| DlbSpec.ChunkShape | libnitrohack/src/dlb.c:301-327 | a line read ends at its first newline, the limit or the end |
| DlbSpec.LinesRebuild | libnitrohack/src/dlb.c:301-327 | the lines until NULL, put together, are the remaining bytes |
| DlbSpec.LinesAreLined | libnitrohack/src/dlb.c:301-327 | each of those lines is non-empty and within the limit, has no newline but at its end, and only the last may end short without one |
| DlbSpec.StringsRebuildIff | libnitrohack/src/dlb.c:301-327 | taken as C strings they are so exactly when there is no NUL byte |
| DlbSpec.OneByteBufferIsStuck | libnitrohack/src/dlb.c:301-327 | with a one-byte buffer line reads never advance |
| DlbSpec.SizesNonNegativeIff | libnitrohack/src/dlb.c:142-148 | sizes are non-negative exactly when offsets ascend |
| DlbSpec.SlicesTile | libnitrohack/src/dlb.c:142-148 | with ascending offsets the files tile the archive |
| DlbRuns.StepIsSeparate | libnitrohack/src/dlb.c:239-327 | every operation on the shared library replies as a private file would, an offset from the end being taken with the opposite sign |
| DlbRuns.RunIsSeparate | libnitrohack/src/dlb.c:239-327 | so does every interleaving over any number of handles, with offsets from the end so turned round |
| Dlb.ComputeSizes | libnitrohack/src/dlb.c:142-148 | the size column from the offset column |
| Dlb.SearchLibraries | libnitrohack/src/dlb.c:160-183 | the first library with a file of that name |
| Dlb.FileHandle.Open | libnitrohack/src/dlb.c:239-254 | an opened handle covers the file found, from its start |
| Dlb.FileHandle.Read | libnitrohack/src/dlb.c:262-283 | lib_dlb_fread does what LibRead says, in the caller's buffer |
| Dlb.FileHandle.Seek | libnitrohack/src/dlb.c:285-299 | lib_dlb_fseek does what LibSeek says |
| Dlb.FileHandle.Gets | libnitrohack/src/dlb.c:301-327 | lib_dlb_fgets leaves the chunk and its terminator in the buffer |
| Attributes.AdjustedOkIff | libnitrohack/src/attrib.c:105-164 | minimum, base, peak and maximum stay in order exactly when the signed byte does not wrap to the wrong side |
| Attributes.GainIsExpectedIff | libnitrohack/src/attrib.c:119-134 | a gain is added up to the maximum with the peak following, except that a drained attribute that bonuses make look full is filled |
| Attributes.GainCanFill | libnitrohack/src/attrib.c:119-134 | a gain of one that fills a drained strength from 10 to 18 |
| Attributes.LossIsExpected | libnitrohack/src/attrib.c:135-152 | a loss is taken down to the minimum, the rest from the peak |
| Attributes.EachPointPaidIff | libnitrohack/src/attrib.c:178-194 | each point is paid with strength or six hit points exactly if abilities are not fixed or none is asked of strength |
| Attributes.FixedStillPays | libnitrohack/src/attrib.c:178-194 | fixed abilities: twelve hit points paid and no strength |
| Attributes.DrainUndoneIff | libnitrohack/src/eat.c:2288-2292 | the point of strength lost to hunger comes back with a full stomach, unless a drained strength that looks full is filled up instead |
| Attributes.HungerCanFill | libnitrohack/src/eat.c:2288-2292 | hunger that comes and goes and fills a strength of 10 to 18 |
| Attributes.RedistributedOk | libnitrohack/src/attrib.c:430-446 | the rescaling division keeps the bounds and a full attribute full |
| Attributes.RunOk | libnitrohack/src/attrib.c:105-446 | over any adjustments, drains and redistributions every attribute stays within its bounds |
| AttributeWorks.Hero.Adjust | libnitrohack/src/attrib.c:105-164 | adjattrib does what AdjAttrib says, and reports a change |
| AttributeWorks.Hero.LoseStrength | libnitrohack/src/attrib.c:178-194 | losestr's loop does what LoseStr says |
| AttributeWorks.Hero.Redistribute | libnitrohack/src/attrib.c:430-446 | redist_attr does what RedistBelow says |
| AttributeWorks.Hero.InitAttributes | libnitrohack/src/attrib.c:382-428 | init_attr ends, and does what Initial says, base and peak alike |
| InitAttr.PickIff | libnitrohack/src/attrib.c:396-397 | exactly which rolls choose which attribute |
| InitAttr.NoMissIff | libnitrohack/src/attrib.c:396-398 | no roll misses exactly if the shares add up to 99 at least |
| InitAttr.ChancesInHundred | libnitrohack/src/attrib.c:396-398 | the chances are the table's shares, but one more for strength and one less for charisma |
| InitAttr.InitialKeeps | libnitrohack/src/attrib.c:382-428 | points are moved, never made or lost, and attributes stay within the race's bounds |
| InitAttr.LeftOnlyIfFull | libnitrohack/src/attrib.c:393-409 | points are left over only if the last hundred rolls all chose full attributes |
| InitAttr.RolesAreFair | libnitrohack/src/role.c:50-375 | every role's shares add up to 100 and its base values to less than 75 |
| InitAttr.BaseFitsIff | libnitrohack/src/role.c:50-464 | base values fit the race's bounds but for three pairs the game does not offer |
| InitAttr.NewHero | libnitrohack/src/u_init.c:841 | a new hero has 75 points, spread within bounds or left over |
| Abilities.TablesAreListed | libnitrohack/src/attrib.c:29-99 | each list names a property once |
| Abilities.AdjAbilIsRight | libnitrohack/src/attrib.c:455-527 | after a change of level each level-driven bit is set exactly if its list has the property at that level or below |
| Abilities.PathIndependent | libnitrohack/src/attrib.c:455-527 | after any ups and downs all bits are those of one direct change |
| Abilities.HeroAbilities | libnitrohack/src/attrib.c:500-509 | what level 1 brings can never be lost, the rest is there exactly from its level on |
| Abilities.Hero.ChangeLevel | libnitrohack/src/attrib.c:455-527 | the one loop over both lists does what AdjAbil says |

## Left out

- All messages, vision and display; `newsym` counts only as recording what a sighted hero sees on top of a pile, and what a blind one feels on his own square.
- BallAndChain.WalkStateSettles: what a sighted hero can see does not change as he moves, because the set of seen squares is a parameter.
- `drop_ball`, `ballfall`, `litter`, `drag_down`.
- BallMemory.MovObjSenses: what a hero perceives is what is there; random glyphs of hallucination appear in BallRuns.FeelKeptIff alone, and being under water, where only water can be felt, not at all.
- BallRuns.FeelKeeps: only for a hero on the ground, because a levitating one feels walls and boulders alone and no piece is noted as felt.
- BallRuns.RunKeepsLedger: for a ball on the floor, because a carried ball's moves are those of the chain alone, which BallMemory.BlindMoveKeptIff covers call by call; and for walking, not `teleds`.
- `in_out_region` between `drag_ball` and the hero's step (hack.c), because no region of this game ever refuses him: the callbacks `can_enter_f` and `can_leave_f` are never set (region.c).
- BallDrag.CarriedStepKeepsChain: only for single steps, because over longer moves the code leaves the chain at the hero's old square.
- BallAndChain.Punishment.MoveBc: while swallowed only the branches that change nothing are kept.
- BallDrag.TeledsLinkedIff: for a ball on the floor.
- The hero as the creature a drawbridge catches, long-worm bodies, opening and destroying a bridge, and the objects and traps a closing bridge destroys.
- Drawbridge.DoEntity: partial correctness, because the code ends only with probability one; when the dice run out nothing is said.
- ArtifactCarry.Hero.CarryIntrinsic: only W_ART calls; worn and wielded sources, other object properties, x-ray vision and the warned-of monster type are not tracked.
- ArtifactRegistry.RunKeepsUnique: an object's age, weight and erosion do not appear, nor how `strip_oprops` ends the effects of an object in use.
- ArtifactWorks.Artifacts.MakeGift: when nothing is eligible the kind of the other weapon, chosen by the hero's skills, is a parameter.
- ArtifactWorks.Artifacts.ResetOne: the fields of bones objects that have nothing to do with names and artifacts.
- Oprops: weights and luck that change with blessing; bits of a mask above the twenty properties.
- TroubleFixer.Hero.FixTroubles: the random mishap of a cursed horn, which is one of six unrelated calls.
- LeashWorks.Level: the two lists are arrays of records, so a pointer is an index and aliasing is not captured; what else `xkilled` and `wary_dog` do to the game is left out.
- Dlb: parsing the directory, opening and closing real files, the fallback to files outside a library, and overflow of size times count.
- Attributes: hit points while polymorphed, timers of temporary changes, `exercise` and `acurr`; the current value is a parameter of `adjattrib`.
- Abilities.Hero.ChangeLevel: weapon skill slots.
- Combat and invocation of artifacts, and the other routines of these files, which would add easy members only.
