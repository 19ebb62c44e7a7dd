/**
 * The room texts the view and the controller show (src/shared/texts.ts).
 * They are constants; the model only relies on them being different from
 * each other and from the raw status strings.
 */
module Texts {
  const RoomBusy: string := "Комната занята"
  const NotInRoom: string := "Не в комнате"
  const CallWaiting: string := "Ожидаем второго участника"
  const CallConnected: string := "Соединение установлено"
  const CallWaitingAlone: string := "В комнате никого кроме вас нет"
  const CallWaitingPeerJoin: string := "Ожидаем подключение собеседника..."
  const CallStateConnected: string := "В звонке"
  const CallStateAlone: string := "В комнате только вы"
  const CallStateWaiting: string := "Ожидание собеседника"
  const ExitCallButton: string := "Выйти"
  const ExitRoomButton: string := "Выйти из комнаты"
  const JoinFailedMessage: string := "Не удалось войти в комнату"
  const JoinFailedReasonPrefix: string := "Не удалось войти:"
  const GenericRoomFullReason: string := "Комната уже заполнена"
  const WebrtcErrorMessage: string := "Не удалось подключиться к комнате. Проверь интернет и доступ к микрофону."
}
