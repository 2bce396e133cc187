/** Commands and the observable records that stand for the core's console output. */
module Effects {

  /** The two deferred device commands; each has a single no-argument `execute`. */
  datatype Command = OpenBarrier(barrierId: string) | TurnOnLight(lightId: string)

  /** One line the core prints, as a structured record rather than text. */
  datatype Effect =
    | FrameReceived(cameraId: string)                   // VideoModule.receive_frame
    | Notified(eventType: string, zona: string)         // NotificationStrategy.execute
    | SchedulingAction(zona: string)                    // DeviceControlStrategy.execute
    | AdminAlerted(component: string, message: string)  // AdminAlertStrategy.execute on a SystemEvent
    | UnknownAdminAlert                                 // AdminAlertStrategy.execute on any other event
    | Executed(command: Command)                        // Command.execute
    | ProcessingQueue                                   // header line of ExecutionModule.process_all
    | RuleEngineReceived(eventId: string)               // RuleEngine.update
    | RuleTriggered(eventId: string, modelId: string)   // DetectionEvent.toRuleTrigger
    | Persisted(eventId: string)                        // StorageService.update
}
