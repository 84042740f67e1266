/**
 * The interface's translation table and the lookup every screen uses to
 * show a text in the chosen language (Uzbek "uz" or English "en"), falling
 * back to the key itself when no text is found.
 */
module Language {
  /** The two texts of one table entry. */
  datatype Phrase = Phrase(uz: string, en: string)

  /** Both texts of a phrase are non-empty. */
  predicate Complete(p: Phrase)
  {
    p.uz != "" && p.en != ""
  }

  /** Every phrase of a table is complete. */
  ghost predicate AllComplete(table: map<string, Phrase>)
  {
    forall k :: k in table ==> Complete(table[k])
  }

  /** Merging two complete tables gives a complete table. */
  lemma MergeComplete(a: map<string, Phrase>, b: map<string, Phrase>)
    requires AllComplete(a) && AllComplete(b)
    ensures AllComplete(a + b)
  {
    forall k | k in a + b ensures Complete((a + b)[k]) {
      if k in b {
        assert (a + b)[k] == b[k];
      } else {
        assert (a + b)[k] == a[k];
      }
    }
  }

  /** The "Common" part of the table (14 entries). */
  const CommonPhrases: map<string, Phrase> := map[
    "language" := Phrase("O'zbek", "English"),
    "login" := Phrase("Kirish", "Login"),
    "logout" := Phrase("Chiqish", "Logout"),
    "save" := Phrase("Saqlash", "Save"),
    "cancel" := Phrase("Bekor qilish", "Cancel"),
    "add" := Phrase("Qo'shish", "Add"),
    "edit" := Phrase("Tahrirlash", "Edit"),
    "delete" := Phrase("O'chirish", "Delete"),
    "confirm" := Phrase("Tasdiqlash", "Confirm"),
    "back" := Phrase("Orqaga", "Back"),
    "next" := Phrase("Keyingi", "Next"),
    "loading" := Phrase("Yuklanmoqda...", "Loading..."),
    "error" := Phrase("Xatolik", "Error"),
    "success" := Phrase("Muvaffaqiyat", "Success")
  ]

  lemma CommonPhrasesComplete()
    ensures AllComplete(CommonPhrases)
  {
  }

  /** The "Navigation" part of the table (5 entries). */
  const NavigationPhrases: map<string, Phrase> := map[
    "home" := Phrase("Bosh sahifa", "Home"),
    "about" := Phrase("Biz haqimizda", "About"),
    "contact" := Phrase("Aloqa", "Contact Us"),
    "features" := Phrase("Imkoniyatlar", "Features"),
    "dashboard" := Phrase("Boshqaruv paneli", "Dashboard")
  ]

  lemma NavigationPhrasesComplete()
    ensures AllComplete(NavigationPhrases)
  {
  }

  /** The "Authentication" part of the table (11 entries). */
  const AuthenticationPhrases: map<string, Phrase> := map[
    "email" := Phrase("Elektron pochta", "Email"),
    "password" := Phrase("Parol", "Password"),
    "studentId" := Phrase("O'quvchi ID", "Student ID"),
    "name" := Phrase("Ism", "Name"),
    "role" := Phrase("Rol", "Role"),
    "student" := Phrase("O'quvchi", "Student"),
    "teacher" := Phrase("O'qituvchi", "Teacher"),
    "admin" := Phrase("Administrator", "Admin"),
    "loginWithStudentId" := Phrase("O'quvchi ID bilan kirish", "Login with Student ID"),
    "adminLogin" := Phrase("Administrator kirish", "Admin Login"),
    "teacherLogin" := Phrase("O'qituvchi kirish", "Teacher Login")
  ]

  lemma AuthenticationPhrasesComplete()
    ensures AllComplete(AuthenticationPhrases)
  {
  }

  /** The "Dashboard" part of the table (7 entries). */
  const DashboardPhrases: map<string, Phrase> := map[
    "welcomeAdmin" := Phrase("Xush kelibsiz, Administrator", "Welcome, Admin"),
    "welcomeTeacher" := Phrase("Xush kelibsiz, O'qituvchi", "Welcome, Teacher"),
    "welcomeStudent" := Phrase("Xush kelibsiz, O'quvchi", "Welcome, Student"),
    "totalTeachers" := Phrase("Jami o'qituvchilar", "Total Teachers"),
    "totalStudents" := Phrase("Jami o'quvchilar", "Total Students"),
    "totalItems" := Phrase("Jami mahsulotlar", "Total Items"),
    "coinBalance" := Phrase("Tanga balansi", "Coin Balance")
  ]

  lemma DashboardPhrasesComplete()
    ensures AllComplete(DashboardPhrases)
  {
  }

  /** The "Items" part of the table (9 entries). */
  const ItemsPhrases: map<string, Phrase> := map[
    "items" := Phrase("Mahsulotlar", "Items"),
    "itemName" := Phrase("Mahsulot nomi", "Item Name"),
    "price" := Phrase("Narx", "Price"),
    "description" := Phrase("Ta'rif", "Description"),
    "available" := Phrase("Mavjud", "Available"),
    "addItem" := Phrase("Mahsulot qo'shish", "Add Item"),
    "buyItem" := Phrase("Sotib olish", "Buy Item"),
    "coins" := Phrase("tangalar", "coins"),
    "insufficientCoins" := Phrase("Tangalar yetarli emas", "Insufficient coins")
  ]

  lemma ItemsPhrasesComplete()
    ensures AllComplete(ItemsPhrases)
  {
  }

  /** The "Students" part of the table (6 entries). */
  const StudentsPhrases: map<string, Phrase> := map[
    "students" := Phrase("O'quvchilar", "Students"),
    "addStudent" := Phrase("O'quvchi qo'shish", "Add Student"),
    "giveCoins" := Phrase("Tanga berish", "Give Coins"),
    "amount" := Phrase("Miqdor", "Amount"),
    "reason" := Phrase("Sabab", "Reason"),
    "transactions" := Phrase("Tranzaksiyalar", "Transactions")
  ]

  lemma StudentsPhrasesComplete()
    ensures AllComplete(StudentsPhrases)
  {
  }

  /** The "Teachers" part of the table (2 entries). */
  const TeachersPhrases: map<string, Phrase> := map[
    "teachers" := Phrase("O'qituvchilar", "Teachers"),
    "addTeacher" := Phrase("O'qituvchi qo'shish", "Add Teacher")
  ]

  lemma TeachersPhrasesComplete()
    ensures AllComplete(TeachersPhrases)
  {
  }

  /** The "Home page" part of the table (5 entries). */
  const HomePhrases: map<string, Phrase> := map[
    "ilmhubTitle" := Phrase("IlmHub Coin", "IlmHub Coin"),
    "ilmhubSubtitle" := Phrase("Ta'lim uchun raqamli tanga tizimi", "Digital Coin System for Education"),
    "heroDescription" := Phrase("IlmHub Coin - bu ta'lim muassasalari uchun zamonaviy raqamli mukofot tizimi. O'quvchilar faoliyati uchun tangalar olib, ularni turli mahsulotlarga almashtirishlari mumkin.", "IlmHub Coin is a modern digital reward system for educational institutions. Students can earn coins for their activities and exchange them for various items."),
    "getStarted" := Phrase("Boshlash", "Get Started"),
    "learnMore" := Phrase("Batafsil", "Learn More")
  ]

  lemma HomePhrasesComplete()
    ensures AllComplete(HomePhrases)
  {
  }

  /** The "About page" part of the table (4 entries). */
  const AboutPhrases: map<string, Phrase> := map[
    "aboutTitle" := Phrase("Biz haqimizda", "About Us"),
    "aboutDescription" := Phrase("IlmHub Coin - bu ta'lim sohasida inqilobiy o'zgarishlar olib keladigan raqamli mukofot tizimi.", "IlmHub Coin is a revolutionary digital reward system that brings innovation to education."),
    "missionTitle" := Phrase("Bizning missiyamiz", "Our Mission"),
    "missionText" := Phrase("Biz ta'limni yanada qiziqarli va motivatsion qilish uchun zamonaviy texnologiyalardan foydalanamiz.", "We use modern technology to make education more engaging and motivational.")
  ]

  lemma AboutPhrasesComplete()
    ensures AllComplete(AboutPhrases)
  {
  }

  /** The "Features page" part of the table (7 entries). */
  const FeaturesPhrases: map<string, Phrase> := map[
    "featuresTitle" := Phrase("Imkoniyatlar", "Features"),
    "feature1Title" := Phrase("Oson boshqaruv", "Easy Management"),
    "feature1Desc" := Phrase("Administratorlar va o'qituvchilar uchun sodda va qulay interfeys", "Simple and convenient interface for administrators and teachers"),
    "feature2Title" := Phrase("Xavfsiz tizim", "Secure System"),
    "feature2Desc" := Phrase("Ma'lumotlarning xavfsizligi va maxfiyligini ta'minlash", "Ensuring data security and privacy"),
    "feature3Title" := Phrase("Real vaqt", "Real-time"),
    "feature3Desc" := Phrase("Tanga o'tkazmalari va balans o'zgarishlari real vaqtda yangilanadi", "Coin transfers and balance changes are updated in real-time")
  ]

  lemma FeaturesPhrasesComplete()
    ensures AllComplete(FeaturesPhrases)
  {
  }

  /** The "Contact page" part of the table (6 entries). */
  const ContactPhrases: map<string, Phrase> := map[
    "contactTitle" := Phrase("Aloqa", "Contact Us"),
    "contactDescription" := Phrase("Bizga murojaat qiling va savollaringizni bering", "Contact us and ask your questions"),
    "phone" := Phrase("Telefon", "Phone"),
    "address" := Phrase("Manzil", "Address"),
    "sendMessage" := Phrase("Xabar yuborish", "Send Message"),
    "message" := Phrase("Xabar", "Message")
  ]

  lemma ContactPhrasesComplete()
    ensures AllComplete(ContactPhrases)
  {
  }

  /** The "Additional translations" part of the table (4 entries). */
  const AdditionalPhrases: map<string, Phrase> := map[
    "management" := Phrase("boshqaruv", "management"),
    "information" := Phrase("ma'lumot", "information"),
    "moreFeatures" := Phrase("Ko'proq imkoniyatlar", "More Features"),
    "technology" := Phrase("Texnologiya", "Technology")
  ]

  lemma AdditionalPhrasesComplete()
    ensures AllComplete(AdditionalPhrases)
  {
  }

  /** The "Footer translations" part of the table (12 entries). */
  const FooterPhrases: map<string, Phrase> := map[
    "footerDescription" := Phrase("Ta'limni innovatsion raqamli mukofotlar va o'quv boshqaruvi orqali rivojlantirish", "Empowering education through innovative digital rewards and learning management"),
    "quickLinks" := Phrase("Tezkor havolalar", "Quick Links"),
    "services" := Phrase("Xizmatlar", "Services"),
    "studentManagement" := Phrase("O'quvchilarni boshqarish", "Student Management"),
    "coinRewards" := Phrase("Tanga mukofotlari", "Coin Rewards"),
    "teacherDashboard" := Phrase("O'qituvchi paneli", "Teacher Dashboard"),
    "adminPanel" := Phrase("Administrator paneli", "Admin Panel"),
    "contactInfo" := Phrase("Aloqa ma'lumotlari", "Contact Info"),
    "allRightsReserved" := Phrase("Barcha huquqlar himoyalangan", "All rights reserved"),
    "privacyPolicy" := Phrase("Maxfiylik siyosati", "Privacy Policy"),
    "termsOfService" := Phrase("Foydalanish shartlari", "Terms of Service"),
    "cookiePolicy" := Phrase("Cookie siyosati", "Cookie Policy")
  ]

  lemma FooterPhrasesComplete()
    ensures AllComplete(FooterPhrases)
  {
  }

  /** The "Theme translations" part of the table (3 entries). */
  const ThemePhrases: map<string, Phrase> := map[
    "lightMode" := Phrase("Yorug' rejim", "Light Mode"),
    "darkMode" := Phrase("Qora rejim", "Dark Mode"),
    "theme" := Phrase("Mavzu", "Theme")
  ]

  lemma ThemePhrasesComplete()
    ensures AllComplete(ThemePhrases)
  {
  }

  /**
   * The whole table. Later parts win on a shared key, as a later property
   * of an object literal does.
   */
  const Translations: map<string, Phrase> :=
    CommonPhrases + NavigationPhrases + AuthenticationPhrases + DashboardPhrases + ItemsPhrases +
    StudentsPhrases + TeachersPhrases + HomePhrases + AboutPhrases + FeaturesPhrases +
    ContactPhrases + AdditionalPhrases + FooterPhrases + ThemePhrases

  /** Every phrase of the table has a non-empty Uzbek and English text. */
  lemma TableComplete()
    ensures AllComplete(Translations)
  {
    CommonPhrasesComplete();
    NavigationPhrasesComplete();
    MergeComplete(CommonPhrases, NavigationPhrases);
    AuthenticationPhrasesComplete();
    MergeComplete(CommonPhrases + NavigationPhrases, AuthenticationPhrases);
    DashboardPhrasesComplete();
    MergeComplete(CommonPhrases + NavigationPhrases + AuthenticationPhrases, DashboardPhrases);
    ItemsPhrasesComplete();
    MergeComplete(CommonPhrases + NavigationPhrases + AuthenticationPhrases + DashboardPhrases, ItemsPhrases);
    StudentsPhrasesComplete();
    MergeComplete(CommonPhrases + NavigationPhrases + AuthenticationPhrases + DashboardPhrases + ItemsPhrases, StudentsPhrases);
    TeachersPhrasesComplete();
    MergeComplete(CommonPhrases + NavigationPhrases + AuthenticationPhrases + DashboardPhrases + ItemsPhrases + StudentsPhrases, TeachersPhrases);
    HomePhrasesComplete();
    MergeComplete(CommonPhrases + NavigationPhrases + AuthenticationPhrases + DashboardPhrases + ItemsPhrases + StudentsPhrases + TeachersPhrases, HomePhrases);
    AboutPhrasesComplete();
    MergeComplete(CommonPhrases + NavigationPhrases + AuthenticationPhrases + DashboardPhrases + ItemsPhrases + StudentsPhrases + TeachersPhrases + HomePhrases, AboutPhrases);
    FeaturesPhrasesComplete();
    MergeComplete(CommonPhrases + NavigationPhrases + AuthenticationPhrases + DashboardPhrases + ItemsPhrases + StudentsPhrases + TeachersPhrases + HomePhrases + AboutPhrases, FeaturesPhrases);
    ContactPhrasesComplete();
    MergeComplete(CommonPhrases + NavigationPhrases + AuthenticationPhrases + DashboardPhrases + ItemsPhrases + StudentsPhrases + TeachersPhrases + HomePhrases + AboutPhrases + FeaturesPhrases, ContactPhrases);
    AdditionalPhrasesComplete();
    MergeComplete(CommonPhrases + NavigationPhrases + AuthenticationPhrases + DashboardPhrases + ItemsPhrases + StudentsPhrases + TeachersPhrases + HomePhrases + AboutPhrases + FeaturesPhrases + ContactPhrases, AdditionalPhrases);
    FooterPhrasesComplete();
    MergeComplete(CommonPhrases + NavigationPhrases + AuthenticationPhrases + DashboardPhrases + ItemsPhrases + StudentsPhrases + TeachersPhrases + HomePhrases + AboutPhrases + FeaturesPhrases + ContactPhrases + AdditionalPhrases, FooterPhrases);
    ThemePhrasesComplete();
    MergeComplete(CommonPhrases + NavigationPhrases + AuthenticationPhrases + DashboardPhrases + ItemsPhrases + StudentsPhrases + TeachersPhrases + HomePhrases + AboutPhrases + FeaturesPhrases + ContactPhrases + AdditionalPhrases + FooterPhrases, ThemePhrases);
  }

  /** The text of `key` in `language`, or the key itself when there is none. */
  function Translate(table: map<string, Phrase>, language: string, key: string): (text: string)
    ensures key !in table ==> text == key
    ensures language != "uz" && language != "en" ==> text == key
    ensures key in table && language == "uz" ==> text == if table[key].uz != "" then table[key].uz else key
    ensures key in table && language == "en" ==> text == if table[key].en != "" then table[key].en else key
  {
    if key in table && language == "uz" && table[key].uz != "" then table[key].uz
    else if key in table && language == "en" && table[key].en != "" then table[key].en
    else key
  }

  /** In a complete table, every key reads as its own text in either language. */
  lemma KnownKeyTranslates(table: map<string, Phrase>, key: string)
    requires AllComplete(table) && key in table
    ensures table[key].uz != "" && Translate(table, "uz", key) == table[key].uz
    ensures table[key].en != "" && Translate(table, "en", key) == table[key].en
  {
  }

  /**
   * The language state of the interface and the lookup that reads it. The
   * lookup closes over the translation table, held here as `table`.
   */
  class LanguageProvider {
    var language: string
    const table: map<string, Phrase>

    /** The table is complete. */
    ghost predicate Valid()
    {
      AllComplete(table)
    }

    /** The interface starts in Uzbek, with the shipped table. */
    constructor ()
      ensures language == "uz" && table == Translations
      ensures Valid()
    {
      language := "uz";
      table := Translations;
      TableComplete();
    }

    /** Chooses the language of every later lookup. */
    method SetLanguage(l: string)
      modifies this
      ensures language == l
      ensures forall key :: T(key) == Translate(table, l, key)
    {
      language := l;
    }

    /** The lookup offered to every screen. */
    function T(key: string): (text: string)
      reads this
      ensures key !in table ==> text == key
      ensures language != "uz" && language != "en" ==> text == key
      ensures Valid() && key in table && language == "uz" ==> text == table[key].uz && text != ""
      ensures Valid() && key in table && language == "en" ==> text == table[key].en && text != ""
    {
      Translate(table, language, key)
    }
  }
}
