/** The string ids of the seven block kinds, shared by the editor that
    places them and the interpreter that runs them. */
module BlockIds {
  const MoveForwardId := "move-forward"
  const TurnLeftId := "turn-left"
  const TurnRightId := "turn-right"
  const CollectId := "collect"
  const LoopStartId := "loop-start-3"
  const LoopEndId := "loop-end"
  const IfPathId := "if-path"
}
